# Keyword planner for Google Ads: a Dafny model

This project models the core of a small PHP library. The library asks the Google
Ads API for keyword metrics. It has two entry points, both behind the planner
facade:

- **Keyword metrics with history.** The manager creates a temporary keyword
  plan, a campaign under it, an ad group under the campaign and the requested
  keywords under the ad group. It fetches the plan's historical metrics,
  turns each monthly series into a last-month / last-year / first-month
  window, and deletes the plan.
- **Keyword ideas.** The manager applies defaults to the request array,
  chooses a seed (keywords, a page URL, or both) and sends one
  keyword-ideas request. It keeps the ideas stream up to the first element
  that is not a requested keyword or whose position has reached the number
  of keywords.

A process-wide service resolves geo-target and language constants and
memoises them in two maps. The ideas query resolves both. The metrics path
resolves only the geo target of its campaign; the campaign's language is the
fixed criterion 1000.

The remote API is a `Platform` value: one function per remote operation,
giving the reply for each request. `AdsClient` (`ads_platform.dfy`) holds a
platform and a `trace` of every call made through it. That lets the
contracts say which calls were made, in what order, with which arguments,
and what became of each reply.

Modules:

- `AdsPlatform`: the resources, the operations and the calls, plus the client.
- `MetricTransform`: the historical-metrics transformation, with its month
  window, and the idea filter.
- `Request`: defaults and seed selection for the ideas request.
- `GoogleAdsService`: the constant cache of the service class of the same name.
- `AdsManager`: `GoogleAdsManager`, the plan lifecycle and the ideas query.
- `KeyWordPlanner`: the validating facade (`GoogleKeyWordPlanner`).

Each manager operation is a method on the class. It is proved equal to a
pure run function (`KeywordMetricRun`, `IdeaMetricsRun`). The run function
gives the remote calls made, the caches afterwards and the result. The
lemmas state the lifecycle's properties on those functions.

At these points the code behaves in ways a reader might not expect, and the model follows the code:

- **Last-year searches.** The code tests the last-year index with `<= 0`.
  A series of exactly thirteen months therefore reports 0 for last year,
  although its oldest month is twelve months back (`ThirteenMonthWindow`).
- **Keyword creation.** A failure while creating the ad group's keywords is
  not caught in the code. It aborts `getKeywordMetric`, and the plan is not
  deleted.
- **Page URL.** The page URL counts as given whenever it is a string, the
  empty string included, because the code tests it with `is_null`.
- **Validation.** The facade's validation asks only that both keys exist.
  Null values pass it (`NullKeysPassValidationButHaveNoSeed`).

## Model

| member | source | states |
|---|---|---|
| MetricTransform.DeriveWindow | src/GoogleAdsManager.php:256-267 | last month is the newest entry; first month is the oldest; last year is the entry twelve before the newest for series longer than 13 months, and 0 otherwise |
| MetricTransform.SingleMonthWindow | src/GoogleAdsManager.php:256-267 | a one-month series gives that month as first and last month, and 0 for last year |
| MetricTransform.ThirteenMonthWindow | src/GoogleAdsManager.php:259-263 | a thirteen-month series still gives 0 for last year, because of the `<= 0` test on index 0 |
| MetricTransform.FourteenMonthWindow | src/GoogleAdsManager.php:256-267 | a fourteen-month series gives the entry twelve months before the newest as last year |
| MetricTransform.OlderMonthsKeepRecentWindow | src/GoogleAdsManager.php:256-263 | once a series is longer than 13 months, prepending older months does not change last month or last year |
| MetricTransform.MonthlySeries | src/GoogleAdsManager.php:244-248 | the inner loop's series has one entry per monthly volume, in order, each that month's searches |
| MetricTransform.HistoricalRecord | src/GoogleAdsManager.php:249-278 | a record copies the entry's query and summary metrics, and takes its window fields from the monthly series |
| MetricTransform.TransformHistoricalMetrics | src/GoogleAdsManager.php:236-280 | the nested loops give one record per metrics entry, in the platform's order, each equal to that entry's HistoricalRecord |
| MetricTransform.IdeaRecord | src/GoogleAdsManager.php:172-183 | an idea's record copies its text and idea metrics, and sets the three window fields to 0 |
| MetricTransform.Accepted | src/GoogleAdsManager.php:172 | an element is kept iff its text equals some requested keyword and its position is below the keyword count |
| MetricTransform.FilteredIdeasFrom | src/GoogleAdsManager.php:170-189 | from a stream position on, the records are the accepted elements up to the first rejected one, and never run past the keyword count |
| MetricTransform.FilteredIdeas | src/GoogleAdsManager.php:168-190 | the filter keeps a prefix of the stream; every kept text is a requested keyword; it keeps no more records than keywords; the element after the prefix fails the keyword test or the position test |
| MetricTransform.StopsAtFirstRejectedIdea | src/GoogleAdsManager.php:170-188 | with keywords a, b, c and the stream a, b, x, c, only a and b are kept; the `break` means c is never reached |
| MetricTransform.FilterIdeaResults | src/GoogleAdsManager.php:168-190 | the foreach with its break yields exactly FilteredIdeas |
| Request.KeyWordsOf | src/GoogleAdsManager.php:127-128 | the keywords are the 'keyWords' list when it is set and is an array, and empty otherwise |
| Request.PageUrlOf | src/GoogleAdsManager.php:129 | the page URL is present exactly when 'pageUrl' is set and is a string; it is then that string |
| Request.LanguageCodeOf | src/GoogleAdsManager.php:130 | the language code is the 'languageCode' string, and "en_US" when it is absent or not a string |
| Request.ChooseSeed | src/GoogleAdsManager.php:132-146 | with neither keywords nor a URL, an InvalidArgument with the source's message; a URL seed iff no keywords; a keyword seed iff no URL; a combined seed iff both; the seed carries the inputs unchanged |
| Request.EmptyRequestHasNoSeed | src/GoogleAdsManager.php:127-136 | an empty keyword list and no 'pageUrl' key is an invalid argument |
| GoogleAdsService.LanguageQuery | src/Service/GoogleAdsService.php:78 | the language search is the fixed query with the language code between its quotes |
| GoogleAdsService.LanguageQueryInjective | src/Service/GoogleAdsService.php:78 | distinct language codes give distinct queries, so the query identifies the code |
| GoogleAdsService.StoreFirst | src/Service/GoogleAdsService.php:54-58 | a fill stores the first candidate, and only it, under the key; with no candidate the map is unchanged; other keys are untouched |
| GoogleAdsService.GeoLookup | src/Service/GoogleAdsService.php:113-122 | a cached code makes no call; otherwise one suggestion request for locale and code; a failed request is an error, no suggestion returns null and leaves the key unset, and otherwise the first suggestion is stored and returned; existing entries are kept |
| GoogleAdsService.LanguageLookup | src/Service/GoogleAdsService.php:101-111 | a cached code makes no call; otherwise one search with LanguageQuery; a failed search is an error, no row is a missing-constant error, and otherwise the first row is stored and returned; existing entries are kept |
| GoogleAdsService.RepeatedGeoLookupIsCached | src/Service/GoogleAdsService.php:116-121 | after a lookup that resolved, the same lookup makes no call and returns the same handle |
| GoogleAdsService.UnresolvedGeoLookupIsRepeated | src/Service/GoogleAdsService.php:54-58 | a lookup that found no suggestion caches nothing, so the next lookup repeats it in full |
| GoogleAdsService.MissingAfterFirst | src/Service/GoogleAdsService.php:118-120 | bookkeeping for repeated lookups: after the first code is cached, the uncached codes are those of the rest, plus the first one if it was uncached |
| GoogleAdsService.ResolvedLookup | src/Service/GoogleAdsService.php:113-122 | a lookup that resolves leaves its code in the cache, and makes a remote call only when the code was not cached |
| GoogleAdsService.LookupsCacheEveryCode | src/Service/GoogleAdsService.php:113-122 | when every lookup resolves, a run of lookups leaves every code it looked up in the cache, on top of what was there |
| GoogleAdsService.OneRemoteLookupPerDistinctCode | src/Service/GoogleAdsService.php:113-122 | when every lookup resolves, a run of lookups makes exactly one remote call per distinct code that was not cached at the start |
| GoogleAdsService.ConstantCache.constructor | src/Service/GoogleAdsService.php:17-25 | both maps start empty |
| GoogleAdsService.ConstantCache.SetGeoTargetConstant | src/Service/GoogleAdsService.php:35-59 | one suggestion request; a failed request is an error and leaves the map unchanged; otherwise the map becomes StoreFirst of the suggestions |
| GoogleAdsService.ConstantCache.SetLanguageConstant | src/Service/GoogleAdsService.php:71-88 | one search with LanguageQuery; a failed search is an error and leaves the map unchanged; otherwise the map becomes StoreFirst of the rows |
| GoogleAdsService.ConstantCache.GetLanguageConstant | src/Service/GoogleAdsService.php:101-111 | the result, the new language map and the calls appended are those of LanguageLookup |
| GoogleAdsService.ConstantCache.GetGeoTargetConstant | src/Service/GoogleAdsService.php:113-122 | the result, the new geo map and the calls appended are those of GeoLookup |
| AdsManager.KeywordOps | src/GoogleAdsManager.php:415-430 | one create operation per requested keyword, in order: exact match, bid 1000000, under the given ad group |
| AdsManager.BuildKeywordOperations | src/GoogleAdsManager.php:412-430 | the two loops build exactly KeywordOps |
| AdsManager.CampaignCreation | src/GoogleAdsManager.php:325-357 | the geo cache afterwards is that of the geo lookup; at most two calls; on success the geo target resolved and the last call created the campaign under the plan with search and partners, bid 1000000, that target and language 1000, and the result is the platform's name for it |
| AdsManager.AdGroupStepsShift | src/GoogleAdsManager.php:89-108 | the ad-group, keyword, fetch and delete steps do not depend on the calls before them; a longer history only prefixes the trace |
| AdsManager.KeywordMetricRun | src/GoogleAdsManager.php:73-109 | getKeywordMetric never raises the facade's logic error and leaves the language cache alone; the geo cache keeps its entries and can gain only the requested location |
| AdsManager.RemovesLastCount | src/GoogleAdsManager.php:104-106 | when only the last call may delete the plan, the trace deletes it once on success and never otherwise |
| AdsManager.AdGroupStepsRemoveLast | src/GoogleAdsManager.php:89-106 | after a deletion-free history, the tail of the lifecycle deletes the plan only in its last call, and only when it succeeded |
| AdsManager.PlanRemovedExactlyOnce | src/GoogleAdsManager.php:73-109 | the plan is deleted once, in the last call, exactly when getKeywordMetric succeeds; an aborted call leaves the plan in place |
| AdsManager.KeywordMetricLifecycle | src/GoogleAdsManager.php:73-109 | a successful call makes exactly these calls in order: create the plan; the geo lookup if the code is not cached; create the campaign under the plan, scoped to the resolved target; create the ad group under the campaign; create the keywords under the ad group; fetch the plan's metrics; delete the plan; the records are those of the fetched metrics |
| AdsManager.KeywordMetricCreatesPlanFirst | src/GoogleAdsManager.php:77-80 | every call of getKeywordMetric starts by creating the plan |
| AdsManager.IdeaMetricsRun | src/GoogleAdsManager.php:125-192 | getKeywordIdeaMetrics never raises the facade's logic error, and both caches keep their existing entries |
| AdsManager.IdeaSeedRequired | src/GoogleAdsManager.php:132-136 | an InvalidArgument iff the request has neither keywords nor a URL; it is raised before any remote call and before any cache entry |
| AdsManager.IdeaRequestAndFilter | src/GoogleAdsManager.php:148-190 | a successful call makes the geo lookup, the language lookup and one ideas request (fixed customer, search-and-partners network, resolved constants, chosen seed); the records are FilteredIdeas of the reply, never more than the keywords |
| AdsManager.IdeaCreatesNoResources | src/GoogleAdsManager.php:125-192 | the ideas query makes at most three calls and creates or deletes nothing |
| AdsManager.GoogleAdsManager.constructor | src/GoogleAdsManager.php:51-59 | the manager holds the given, already built client and the shared cache |
| AdsManager.GoogleAdsManager.CreateKeywordPlan | src/GoogleAdsManager.php:292-311 | one plan mutation with the next-quarter forecast; returns the created resource name or the platform error |
| AdsManager.GoogleAdsManager.CreateKeywordPlanCampaign | src/GoogleAdsManager.php:325-357 | a geo lookup through the cache, then one campaign mutation under the plan (search and partners, bid 1000000, the resolved target, language 1000), as CampaignCreation states |
| AdsManager.GoogleAdsManager.CreateKeywordPlanAdGroup | src/GoogleAdsManager.php:370-391 | one ad-group mutation under the campaign with bid 1000000; returns the resource name or the platform error |
| AdsManager.GoogleAdsManager.CreateKeywordPlanAdGroupKeywords | src/GoogleAdsManager.php:405-439 | one mutation carrying KeywordOps of the request's keywords; the platform error is returned |
| AdsManager.GoogleAdsManager.GetHistoricalMetric | src/GoogleAdsManager.php:229-281 | one metrics request for the plan; the records are HistoricalRecords of the reply, or the platform error |
| AdsManager.GoogleAdsManager.RemoveKeywordPlan | src/GoogleAdsManager.php:201-217 | one delete mutation for the plan; its failure is swallowed |
| AdsManager.GoogleAdsManager.GetKeywordMetric | src/GoogleAdsManager.php:73-109 | the result, the calls appended and the geo cache afterwards are those of KeywordMetricRun |
| AdsManager.GoogleAdsManager.MeasurePlan | src/GoogleAdsManager.php:89-108 | the ad-group, keyword, fetch and delete steps of getKeywordMetric make the calls and give the result of AdGroupSteps |
| AdsManager.GoogleAdsManager.GetKeywordIdeaMetrics | src/GoogleAdsManager.php:125-192 | the result, the calls appended and both caches afterwards are those of IdeaMetricsRun |
| KeyWordPlanner.IncomingDataValidation | src/GoogleKeyWordPlanner.php:67-70 | the request array passes iff both 'keyWords' and 'languageCode' are among its keys |
| KeyWordPlanner.ValidationChecksKeysOnly | src/GoogleKeyWordPlanner.php:67-70 | the check reads no value: rewriting any entry keeps its verdict, and removing either required key fails it |
| KeyWordPlanner.PlannerIdeaRun | src/GoogleKeyWordPlanner.php:41-48 | a LogicError with the source's message iff a key is missing, with no call and no cache change; otherwise exactly the manager's ideas run |
| KeyWordPlanner.PlannerKeywordMetricRun | src/GoogleKeyWordPlanner.php:58-65 | a LogicError with the source's message iff a key is missing, with no call and no cache change; otherwise exactly the manager's plan lifecycle |
| KeyWordPlanner.NullKeysPassValidationButHaveNoSeed | src/GoogleKeyWordPlanner.php:67-70 | null keywords and a null language code pass validation, then fail the manager's seed check before any remote call |
| KeyWordPlanner.GoogleKeyWordPlanner.constructor | src/GoogleKeyWordPlanner.php:26-32 | the planner holds the given manager |
| KeyWordPlanner.GoogleKeyWordPlanner.GetKeywordIdeaMetrics | src/GoogleKeyWordPlanner.php:41-48 | the result, the calls appended and both caches afterwards are those of PlannerIdeaRun |
| KeyWordPlanner.GoogleKeyWordPlanner.GetKeywordMetric | src/GoogleKeyWordPlanner.php:58-65 | the result, the calls appended and both caches afterwards are those of PlannerKeywordMetricRun |

## Left out

- Authentication, the exporter, the date helper and the connection resolver (`src/Utils/Auth.php`, `src/Export.php`, `src/Utils/Helper.php`, `src/Utils/ConnectionResolver.php`) are not part of this model.
- The Google Ads SDK's request and response objects are reduced to datatypes. The reply to each request comes from the `Platform` oracle functions.
- Resource names are opaque strings chosen by the platform.
- The timestamped plan, campaign and ad-group names are left out; they depend on the clock.
- Every `echo` of an exception message is left out.
- The exception classes are reduced to one `Error` datatype. A call that would throw returns `Failure`.
- In the ideas query and in `setGeoTargetConstant`, an API exception is caught and printed, and the code then reads the undefined `$response`. The model ends that call with `Remote(e)`.
- Paging of the ideas stream is not modelled. `$num` is the element's position in the whole stream.
- Keyword creation in `getKeywordMetric` iterates `$data['keyWords']` as it stands, without the defaulting the ideas query applies. When that key is missing or not a list, PHP only warns and the loop runs zero times; the model reads the keywords through `KeyWordsOf`, which gives the empty list there, so no keyword is created.
- Keyword list items are strings. The code does not check them, and the model does not model items of other types.
- AdsManager.KeywordMetricRun: requires that every monthly series the platform returns is non-empty (`HistoricalSeriesNonEmpty`). With an empty series the code indexes `$searches[-1]`, which PHP answers with a warning and null; that case is not modelled.
- MetricTransform.TransformHistoricalMetrics: the same non-empty-series precondition applies, for the same reason.
- The constructors take an existing client, manager and cache. Building them from a configuration path and a customer id is left out, and so are the mismatched namespaces and constructor signatures.
- Customer id 1937727670 is a constant, as in the manager's `CUSTOMER_ID`.
- The geo handle passed on when no suggestion exists is `None`, standing for PHP's null.
- The process-wide static maps are one `ConstantCache` object, which every caller shares by reference.
- Concurrency is not modelled.

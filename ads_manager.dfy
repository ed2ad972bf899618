/**
  The manager: the keyword-plan lifecycle behind historical metrics, and the
  one-shot keyword-ideas query.

  Each operation is a method over the client and the shared constant cache,
  proved equal to a pure run function (`KeywordMetricRun`, `IdeaMetricsRun`)
  that gives the remote calls made, the caches afterwards and the result.
*/
module AdsManager {
  import opened Wrappers
  import opened AdsPlatform
  import opened MetricTransform
  import opened Request
  import opened GoogleAdsService

  /** One manager call: the remote calls it made, the caches afterwards and what it returned. */
  datatype Run = Run(calls: seq<Call>, caches: Caches, result: Result<seq<KeywordRecord>, Error>)

  /** An exception from the platform, passed on to the caller. */
  function LiftRemote<T>(reply: Result<T, ApiError>): (r: Result<T, Error>)
  {
    match reply
    case Success(v) => Success(v)
    case Failure(e) => Failure(Remote(e))
  }

  function PlanOps(): seq<Op>
  {
    [CreatePlan(NextQuarter)]
  }

  function CampaignOps(plan: string, geoTarget: Option<string>): seq<Op>
  {
    [CreateCampaign(plan, GoogleSearchAndPartners, DefaultBidMicros, geoTarget, DefaultLanguageCriterionId)]
  }

  function AdGroupOps(campaign: string): seq<Op>
  {
    [CreateAdGroup(campaign, DefaultBidMicros)]
  }

  /** One exact-match keyword per requested keyword, in order, each bid at the default and under `adGroup`. */
  function KeywordOps(keywords: seq<string>, adGroup: string): (ops: seq<Op>)
    ensures |ops| == |keywords|
    ensures forall i :: 0 <= i < |keywords| ==>
              ops[i] == CreateKeyword(KeywordEntry(keywords[i], DefaultBidMicros, Exact, adGroup))
  {
    seq(|keywords|, i requires 0 <= i < |keywords| =>
          CreateKeyword(KeywordEntry(keywords[i], DefaultBidMicros, Exact, adGroup)))
  }

  function RemoveOps(plan: string): seq<Op>
  {
    [RemovePlan(plan)]
  }

  /** A call that deletes a plan. */
  predicate IsRemoval(c: Call)
  {
    c.Mutate? && exists i :: 0 <= i < |c.ops| && c.ops[i].RemovePlan?
  }

  /** The number of plan deletions in a trace. */
  function CountRemovals(calls: seq<Call>): nat
  {
    if calls == [] then 0 else (if IsRemoval(calls[0]) then 1 else 0) + CountRemovals(calls[1..])
  }

  lemma {:induction false} CountRemovalsAppend(a: seq<Call>, b: seq<Call>)
    ensures CountRemovals(a + b) == CountRemovals(a) + CountRemovals(b)
  {
    if a == [] {
      assert a + b == b;
    } else {
      assert (a + b)[0] == a[0];
      assert (a + b)[1..] == a[1..] + b;
      CountRemovalsAppend(a[1..], b);
    }
  }

  lemma {:induction false} NoRemovalsCountZero(calls: seq<Call>)
    requires forall i :: 0 <= i < |calls| ==> !IsRemoval(calls[i])
    ensures CountRemovals(calls) == 0
  {
    if calls != [] {
      assert forall i :: 0 <= i < |calls[1..]| ==> calls[1..][i] == calls[i + 1];
      NoRemovalsCountZero(calls[1..]);
    }
  }

  /** Only the last call of a trace may delete a plan, and it does exactly when the call succeeded. */
  ghost predicate RemovesLastOnSuccess(calls: seq<Call>, succeeded: bool)
  {
    && |calls| > 0
    && (forall i :: 0 <= i < |calls| - 1 ==> !IsRemoval(calls[i]))
    && (IsRemoval(calls[|calls| - 1]) <==> succeeded)
  }

  /** The calls made so far and the outcome of a stretch of the lifecycle that does not touch the caches. */
  datatype Steps = Steps(calls: seq<Call>, result: Result<seq<KeywordRecord>, Error>)

  /**
    After the calls `done`: fetch the plan's metrics; after a successful
    fetch the plan is deleted, and a failing deletion is only logged.
  */
  ghost function FetchSteps(p: Platform, done: seq<Call>, plan: string): (s: Steps)
    requires HistoricalSeriesNonEmpty(p)
  {
    var fetched := done + [GenerateHistorical(plan)];
    match p.generateHistorical(plan)
    case Failure(e) => Steps(fetched, Failure(Remote(e)))
    case Success(metrics) =>
      Steps(fetched + [Mutate(CustomerId, RemoveOps(plan))], Success(HistoricalRecords(metrics)))
  }

  /**
    createKeywordPlanCampaign: resolve the geo target through the cache,
    then create the campaign under `plan`, scoped to that target.
  */
  function CampaignCreation(p: Platform, geoCache: map<string, string>, plan: string, locationId: string)
    : (l: Lookup<string>)
    ensures l.cache == GeoLookup(p, geoCache, locationId, DefaultLocale).cache
    ensures |l.calls| <= 2
    ensures l.handle.Success? ==>
              && |l.calls| > 0
              && GeoLookup(p, geoCache, locationId, DefaultLocale).handle.Success?
              && var geoTarget := GeoLookup(p, geoCache, locationId, DefaultLocale).handle.value;
              && l.calls[|l.calls| - 1]
                   == Mutate(CustomerId, [CreateCampaign(plan, GoogleSearchAndPartners, 1000000, geoTarget, 1000)])
              && p.mutate([CreateCampaign(plan, GoogleSearchAndPartners, 1000000, geoTarget, 1000)])
                   == Success(l.handle.value)
  {
    var geo := GeoLookup(p, geoCache, locationId, DefaultLocale);
    match geo.handle
    case Failure(e) => Lookup(geo.cache, geo.calls, Failure(e))
    case Success(geoTarget) =>
      var ops := CampaignOps(plan, geoTarget);
      Lookup(geo.cache, geo.calls + [Mutate(CustomerId, ops)], LiftRemote(p.mutate(ops)))
  }

  /** After the calls `done`: ad group under `campaign`, its keywords, each step aborting on failure, then the fetch. */
  ghost function AdGroupSteps(p: Platform, done: seq<Call>, plan: string, campaign: string,
                              keywords: seq<string>): (s: Steps)
    requires HistoricalSeriesNonEmpty(p)
  {
    var calls1 := done + [Mutate(CustomerId, AdGroupOps(campaign))];
    match LiftRemote(p.mutate(AdGroupOps(campaign)))
    case Failure(e) => Steps(calls1, Failure(e))
    case Success(adGroup) =>
      var calls2 := calls1 + [Mutate(CustomerId, KeywordOps(keywords, adGroup))];
      match LiftRemote(p.mutate(KeywordOps(keywords, adGroup)))
      case Failure(e) => Steps(calls2, Failure(e))
      case Success(_) => FetchSteps(p, calls2, plan)
  }

  /** The steps do not look at the calls made before them: a longer history only prefixes the trace. */
  lemma AdGroupStepsShift(p: Platform, before: seq<Call>, done: seq<Call>, plan: string, campaign: string,
                          keywords: seq<string>)
    requires HistoricalSeriesNonEmpty(p)
    ensures var s := AdGroupSteps(p, done, plan, campaign, keywords);
            AdGroupSteps(p, before + done, plan, campaign, keywords) == Steps(before + s.calls, s.result)
  {
    var adGroupCall := Mutate(CustomerId, AdGroupOps(campaign));
    assert (before + done) + [adGroupCall] == before + (done + [adGroupCall]);
    if p.mutate(AdGroupOps(campaign)).Success? {
      var adGroup := p.mutate(AdGroupOps(campaign)).value;
      var keywordCall := Mutate(CustomerId, KeywordOps(keywords, adGroup));
      var calls2 := done + [adGroupCall] + [keywordCall];
      assert (before + done) + [adGroupCall] + [keywordCall] == before + calls2;
      assert (before + calls2) + [GenerateHistorical(plan)] == before + (calls2 + [GenerateHistorical(plan)]);
      assert (before + calls2) + [GenerateHistorical(plan)] + [Mutate(CustomerId, RemoveOps(plan))]
          == before + (calls2 + [GenerateHistorical(plan)] + [Mutate(CustomerId, RemoveOps(plan))]);
    }
  }

  /**
    getKeywordMetric: create the plan, resolve the geo target, build the plan
    tree, fetch its metrics and delete it. Only the geo-target cache can change.
  */
  ghost function KeywordMetricRun(p: Platform, caches: Caches, data: RequestData, locationId: string): (run: Run)
    requires HistoricalSeriesNonEmpty(p)
    ensures !(run.result.Failure? && run.result.error.LogicError?)
    ensures run.caches.language == caches.language
    ensures forall k :: k in caches.geo ==> k in run.caches.geo && run.caches.geo[k] == caches.geo[k]
    ensures run.caches.geo.Keys <= caches.geo.Keys + {locationId}
  {
    var calls0 := [Mutate(CustomerId, PlanOps())];
    match LiftRemote(p.mutate(PlanOps()))
    case Failure(e) => Run(calls0, caches, Failure(e))
    case Success(plan) =>
      var campaign := CampaignCreation(p, caches.geo, plan, locationId);
      var caches1 := caches.(geo := campaign.cache);
      var calls1 := calls0 + campaign.calls;
      match campaign.handle
      case Failure(e) => Run(calls1, caches1, Failure(e))
      case Success(c) =>
        var tree := AdGroupSteps(p, calls1, plan, c, KeyWordsOf(data));
        Run(tree.calls, caches1, tree.result)
  }

  /** In a trace where only the last call may delete a plan, the count of deletions is that one or none. */
  lemma RemovesLastCount(calls: seq<Call>, succeeded: bool)
    requires RemovesLastOnSuccess(calls, succeeded)
    ensures CountRemovals(calls) == if succeeded then 1 else 0
  {
    var n := |calls|;
    var prefix := calls[..n - 1];
    assert calls == prefix + [calls[n - 1]];
    NoRemovalsCountZero(prefix);
    CountRemovalsAppend(prefix, [calls[n - 1]]);
    assert CountRemovals([calls[n - 1]]) == if IsRemoval(calls[n - 1]) then 1 else 0;
  }

  lemma AdGroupStepsRemoveLast(p: Platform, done: seq<Call>, plan: string, campaign: string, keywords: seq<string>)
    requires HistoricalSeriesNonEmpty(p)
    requires forall i :: 0 <= i < |done| ==> !IsRemoval(done[i])
    ensures var s := AdGroupSteps(p, done, plan, campaign, keywords);
            RemovesLastOnSuccess(s.calls, s.result.Success?)
  {
    if p.mutate(AdGroupOps(campaign)).Success? {
      var adGroup := p.mutate(AdGroupOps(campaign)).value;
      var ops := KeywordOps(keywords, adGroup);
      assert !IsRemoval(Mutate(CustomerId, ops));
      if p.mutate(ops).Success? && p.generateHistorical(plan).Success? {
        assert RemoveOps(plan)[0].RemovePlan?;
        assert IsRemoval(Mutate(CustomerId, RemoveOps(plan)));
      }
    }
  }

  /**
    Only the last call may delete the plan, and it does exactly when the
    call succeeded: the plan is deleted once, after its metrics were
    fetched, and a call that aborts leaves the plan in place.
  */
  lemma PlanRemovedExactlyOnce(p: Platform, caches: Caches, data: RequestData, locationId: string)
    requires HistoricalSeriesNonEmpty(p)
    ensures var run := KeywordMetricRun(p, caches, data, locationId);
            && RemovesLastOnSuccess(run.calls, run.result.Success?)
            && CountRemovals(run.calls) == if run.result.Success? then 1 else 0
  {
    var run := KeywordMetricRun(p, caches, data, locationId);
    if p.mutate(PlanOps()).Success? {
      var plan := p.mutate(PlanOps()).value;
      var campaign := CampaignCreation(p, caches.geo, plan, locationId);
      var calls1 := [Mutate(CustomerId, PlanOps())] + campaign.calls;
      assert forall i :: 0 <= i < |calls1| ==> !IsRemoval(calls1[i]);
      if campaign.handle.Success? {
        AdGroupStepsRemoveLast(p, calls1, plan, campaign.handle.value, KeyWordsOf(data));
      }
    }
    RemovesLastCount(run.calls, run.result.Success?);
  }

  /**
    A successful call walked the whole lifecycle in order: create the plan;
    look up the geo target unless it is cached; create a campaign under that
    plan, scoped to the resolved target; an ad group under that campaign; the
    keywords under that ad group; fetch the plan's metrics; delete the plan.
    Each parent is the resource name the platform returned for the step
    before, and the records are those of the plan's metrics.
  */
  lemma KeywordMetricLifecycle(p: Platform, caches: Caches, data: RequestData, locationId: string)
    requires HistoricalSeriesNonEmpty(p)
    ensures var run := KeywordMetricRun(p, caches, data, locationId);
            run.result.Success? ==>
              var geo := GeoLookup(p, caches.geo, locationId, DefaultLocale);
              && p.mutate(PlanOps()).Success? && geo.handle.Success?
              && var plan := p.mutate(PlanOps()).value;
              && p.mutate(CampaignOps(plan, geo.handle.value)).Success?
              && var campaign := p.mutate(CampaignOps(plan, geo.handle.value)).value;
              && p.mutate(AdGroupOps(campaign)).Success?
              && var adGroup := p.mutate(AdGroupOps(campaign)).value;
              && p.mutate(KeywordOps(KeyWordsOf(data), adGroup)).Success?
              && p.generateHistorical(plan).Success?
              && run.calls == [Mutate(CustomerId, PlanOps())] + geo.calls
                              + [Mutate(CustomerId, CampaignOps(plan, geo.handle.value)),
                                 Mutate(CustomerId, AdGroupOps(campaign)),
                                 Mutate(CustomerId, KeywordOps(KeyWordsOf(data), adGroup)),
                                 GenerateHistorical(plan),
                                 Mutate(CustomerId, RemoveOps(plan))]
              && run.result.value == HistoricalRecords(p.generateHistorical(plan).value)
  {
    var run := KeywordMetricRun(p, caches, data, locationId);
    if run.result.Success? {
      var plan := p.mutate(PlanOps()).value;
      var geo := GeoLookup(p, caches.geo, locationId, DefaultLocale);
      var campaign := p.mutate(CampaignOps(plan, geo.handle.value)).value;
      var adGroup := p.mutate(AdGroupOps(campaign)).value;
      var tail := [Mutate(CustomerId, CampaignOps(plan, geo.handle.value)),
                   Mutate(CustomerId, AdGroupOps(campaign)),
                   Mutate(CustomerId, KeywordOps(KeyWordsOf(data), adGroup)),
                   GenerateHistorical(plan),
                   Mutate(CustomerId, RemoveOps(plan))];
      assert run.calls == [Mutate(CustomerId, PlanOps())] + (geo.calls + [tail[0]]) + [tail[1]] + [tail[2]]
                          + [tail[3]] + [tail[4]];
    }
  }

  /** Every call starts by creating the plan. */
  lemma KeywordMetricCreatesPlanFirst(p: Platform, caches: Caches, data: RequestData, locationId: string)
    requires HistoricalSeriesNonEmpty(p)
    ensures var run := KeywordMetricRun(p, caches, data, locationId);
            |run.calls| > 0 && run.calls[0] == Mutate(CustomerId, PlanOps())
  {
  }

  /**
    getKeywordIdeaMetrics: defaults, the seed check, one geo-target and one
    language lookup, one ideas request, then the filter over the stream.
  */
  function IdeaMetricsRun(p: Platform, caches: Caches, data: RequestData, locationId: string): (run: Run)
    ensures !(run.result.Failure? && run.result.error.LogicError?)
    ensures forall k :: k in caches.geo ==> k in run.caches.geo && run.caches.geo[k] == caches.geo[k]
    ensures forall k :: k in caches.language ==> k in run.caches.language && run.caches.language[k] == caches.language[k]
  {
    var keywords := KeyWordsOf(data);
    var pageUrl := PageUrlOf(data);
    var languageCode := LanguageCodeOf(data);
    match ChooseSeed(keywords, pageUrl)
    case Failure(e) => Run([], caches, Failure(e))
    case Success(seed) =>
      var geo := GeoLookup(p, caches.geo, locationId, DefaultLocale);
      match geo.handle
      case Failure(e) => Run(geo.calls, caches.(geo := geo.cache), Failure(e))
      case Success(geoTarget) =>
        var language := LanguageLookup(p, caches.language, languageCode, CustomerId);
        var caches1 := Caches(geo.cache, language.cache);
        match language.handle
        case Failure(e) => Run(geo.calls + language.calls, caches1, Failure(e))
        case Success(languageConstant) =>
          var request := IdeaRequest(languageConstant, CustomerId, [geoTarget], GoogleSearchAndPartners, seed);
          var calls := geo.calls + language.calls + [GenerateIdeas(request)];
          match p.generateIdeas(request)
          case Failure(e) => Run(calls, caches1, Failure(Remote(e)))
          case Success(results) => Run(calls, caches1, Success(FilteredIdeas(results, keywords)))
  }

  /**
    Neither keywords nor a URL is an invalid argument, and it is raised before
    anything else happens: no remote call, no cache entry. With a seed, the
    call never fails that way.
  */
  lemma IdeaSeedRequired(p: Platform, caches: Caches, data: RequestData, locationId: string)
    ensures var run := IdeaMetricsRun(p, caches, data, locationId);
            && (run.result == Failure(InvalidArgument(MissingSeedMessage))
                <==> KeyWordsOf(data) == [] && PageUrlOf(data).None?)
            && (KeyWordsOf(data) == [] && PageUrlOf(data).None? ==> run.calls == [] && run.caches == caches)
  {
  }

  /**
    A successful ideas call sends one request, for the fixed customer on the
    search-and-partners network, with the cached or freshly resolved language
    and geo-target constants and the seed the request array calls for; its
    records are the filtered stream, never more than the keywords asked for.
  */
  lemma IdeaRequestAndFilter(p: Platform, caches: Caches, data: RequestData, locationId: string)
    ensures var run := IdeaMetricsRun(p, caches, data, locationId);
            run.result.Success? ==>
              var geo := GeoLookup(p, caches.geo, locationId, DefaultLocale);
              var language := LanguageLookup(p, caches.language, LanguageCodeOf(data), CustomerId);
              var seed := ChooseSeed(KeyWordsOf(data), PageUrlOf(data));
              && seed.Success? && geo.handle.Success? && language.handle.Success?
              && var request := IdeaRequest(language.handle.value, CustomerId, [geo.handle.value],
                                            GoogleSearchAndPartners, seed.value);
              && run.calls == geo.calls + language.calls + [GenerateIdeas(request)]
              && p.generateIdeas(request).Success?
              && run.result.value == FilteredIdeas(p.generateIdeas(request).value, KeyWordsOf(data))
              && |run.result.value| <= |KeyWordsOf(data)|
  {
  }

  /** The ideas call creates no remote resources: at most a geo lookup, a language search and the ideas request. */
  lemma IdeaCreatesNoResources(p: Platform, caches: Caches, data: RequestData, locationId: string)
    ensures var run := IdeaMetricsRun(p, caches, data, locationId);
            |run.calls| <= 3 && forall i :: 0 <= i < |run.calls| ==> !run.calls[i].Mutate?
  {
    var run := IdeaMetricsRun(p, caches, data, locationId);
    var seed := ChooseSeed(KeyWordsOf(data), PageUrlOf(data));
    var geo := GeoLookup(p, caches.geo, locationId, DefaultLocale);
    var language := LanguageLookup(p, caches.language, LanguageCodeOf(data), CustomerId);
    if seed.Success? && geo.handle.Success? {
      var both := geo.calls + language.calls;
      assert |both| <= 2 && forall i :: 0 <= i < |both| ==> !both[i].Mutate?;
      if language.handle.Success? {
        var request := IdeaRequest(language.handle.value, CustomerId, [geo.handle.value],
                                   GoogleSearchAndPartners, seed.value);
        assert run.calls == both + [GenerateIdeas(request)];
      }
    }
  }

  /** The keyword-plan manager over one client and the process-wide constant cache. */
  class GoogleAdsManager {
    const client: AdsClient
    const cache: ConstantCache

    constructor (client: AdsClient, cache: ConstantCache)
      ensures this.client == client && this.cache == cache
    {
      this.client := client;
      this.cache := cache;
    }

    method CreateKeywordPlan() returns (r: Result<string, Error>)
      modifies client
      ensures client.trace == old(client.trace) + [Mutate(CustomerId, PlanOps())]
      ensures r == LiftRemote(client.platform.mutate(PlanOps()))
    {
      var response := client.MutateResources(CustomerId, PlanOps());
      r := LiftRemote(response);
    }

    method CreateKeywordPlanCampaign(plan: string, locationId: string) returns (r: Result<string, Error>)
      modifies client, cache`geoTargetConstants
      ensures var l := CampaignCreation(client.platform, old(cache.geoTargetConstants), plan, locationId);
              && r == l.handle
              && client.trace == old(client.trace) + l.calls
              && cache.geoTargetConstants == l.cache
    {
      var geoTarget := cache.GetGeoTargetConstant(client, locationId, DefaultLocale);
      if geoTarget.Failure? {
        return Failure(geoTarget.error);
      }
      var response := client.MutateResources(CustomerId, CampaignOps(plan, geoTarget.value));
      r := LiftRemote(response);
    }

    method CreateKeywordPlanAdGroup(campaign: string) returns (r: Result<string, Error>)
      modifies client
      ensures client.trace == old(client.trace) + [Mutate(CustomerId, AdGroupOps(campaign))]
      ensures r == LiftRemote(client.platform.mutate(AdGroupOps(campaign)))
    {
      var response := client.MutateResources(CustomerId, AdGroupOps(campaign));
      r := LiftRemote(response);
    }

    method CreateKeywordPlanAdGroupKeywords(adGroup: string, data: RequestData) returns (error: Option<Error>)
      modifies client
      ensures client.trace == old(client.trace) + [Mutate(CustomerId, KeywordOps(KeyWordsOf(data), adGroup))]
      ensures var reply := client.platform.mutate(KeywordOps(KeyWordsOf(data), adGroup));
              error == if reply.Failure? then Some(Remote(reply.error)) else None
    {
      var operations := BuildKeywordOperations(KeyWordsOf(data), adGroup);
      var response := client.MutateResources(CustomerId, operations);
      error := if response.Failure? then Some(Remote(response.error)) else None;
    }

    method GetHistoricalMetric(plan: string) returns (r: Result<seq<KeywordRecord>, Error>)
      requires HistoricalSeriesNonEmpty(client.platform)
      modifies client
      ensures client.trace == old(client.trace) + [GenerateHistorical(plan)]
      ensures var reply := client.platform.generateHistorical(plan);
              && (reply.Failure? ==> r == Failure(Remote(reply.error)))
              && (reply.Success? ==> r == Success(HistoricalRecords(reply.value)))
    {
      var response := client.GenerateHistoricalMetrics(plan);
      if response.Failure? {
        return Failure(Remote(response.error));
      }
      var records := TransformHistoricalMetrics(response.value);
      r := Success(records);
    }

    /** Deletes the plan; a failure is only logged. */
    method RemoveKeywordPlan(plan: string)
      modifies client
      ensures client.trace == old(client.trace) + [Mutate(CustomerId, RemoveOps(plan))]
    {
      var _ := client.MutateResources(CustomerId, RemoveOps(plan));
    }

    method GetKeywordMetric(data: RequestData, locationId: string) returns (r: Result<seq<KeywordRecord>, Error>)
      requires HistoricalSeriesNonEmpty(client.platform)
      modifies client, cache`geoTargetConstants
      ensures var run := KeywordMetricRun(client.platform, old(cache.Contents()), data, locationId);
              && r == run.result
              && client.trace == old(client.trace) + run.calls
              && cache.geoTargetConstants == run.caches.geo
    {
      var plan := CreateKeywordPlan();
      if plan.Failure? {
        return Failure(plan.error);
      }
      var campaign := CreateKeywordPlanCampaign(plan.value, locationId);
      if campaign.Failure? {
        return Failure(campaign.error);
      }
      ghost var done := [Mutate(CustomerId, PlanOps())]
                        + CampaignCreation(client.platform, old(cache.geoTargetConstants), plan.value, locationId).calls;
      assert client.trace == old(client.trace) + done;
      AdGroupStepsShift(client.platform, old(client.trace), done, plan.value, campaign.value, KeyWordsOf(data));
      r := MeasurePlan(plan.value, campaign.value, data);
    }

    /**
      The rest of getKeywordMetric once the campaign exists: ad group,
      keywords, metrics, and the deletion of the plan after a successful fetch.
    */
    method MeasurePlan(plan: string, campaign: string, data: RequestData) returns (r: Result<seq<KeywordRecord>, Error>)
      requires HistoricalSeriesNonEmpty(client.platform)
      modifies client
      ensures var s := AdGroupSteps(client.platform, old(client.trace), plan, campaign, KeyWordsOf(data));
              r == s.result && client.trace == s.calls
    {
      var adGroup := CreateKeywordPlanAdGroup(campaign);
      if adGroup.Failure? {
        return Failure(adGroup.error);
      }
      var error := CreateKeywordPlanAdGroupKeywords(adGroup.value, data);
      if error.Some? {
        return Failure(error.value);
      }
      var historicalMetric := GetHistoricalMetric(plan);
      if historicalMetric.Failure? {
        return Failure(historicalMetric.error);
      }
      RemoveKeywordPlan(plan);
      r := historicalMetric;
    }

    method GetKeywordIdeaMetrics(data: RequestData, locationId: string) returns (r: Result<seq<KeywordRecord>, Error>)
      modifies client, cache
      ensures var run := IdeaMetricsRun(client.platform, old(cache.Contents()), data, locationId);
              && r == run.result
              && client.trace == old(client.trace) + run.calls
              && cache.geoTargetConstants == run.caches.geo
              && cache.languageConstants == run.caches.language
    {
      ghost var p := client.platform;
      ghost var trace0 := client.trace;
      ghost var caches0 := cache.Contents();
      var keywords := KeyWordsOf(data);
      var pageUrl := PageUrlOf(data);
      var languageCode := LanguageCodeOf(data);

      var seed := ChooseSeed(keywords, pageUrl);
      if seed.Failure? {
        return Failure(seed.error);
      }

      var geoTarget := cache.GetGeoTargetConstant(client, locationId, DefaultLocale);
      ghost var geo := GeoLookup(p, caches0.geo, locationId, DefaultLocale);
      ghost var done := geo.calls;
      assert client.trace == trace0 + done;
      if geoTarget.Failure? {
        return Failure(geoTarget.error);
      }
      var language := cache.GetLanguageConstant(client, languageCode, CustomerId);
      done := done + LanguageLookup(p, caches0.language, languageCode, CustomerId).calls;
      assert client.trace == trace0 + done;
      if language.Failure? {
        return Failure(language.error);
      }
      var request := IdeaRequest(language.value, CustomerId, [geoTarget.value], GoogleSearchAndPartners, seed.value);
      var response := client.GenerateKeywordIdeas(request);
      done := done + [GenerateIdeas(request)];
      assert client.trace == trace0 + done;
      if response.Failure? {
        return Failure(Remote(response.error));
      }
      var keywordIdeaMetrics := FilterIdeaResults(response.value, keywords);
      r := Success(keywordIdeaMetrics);
    }
  }

  /** Builds the keyword entries of the ad group, then one create operation per entry. */
  method BuildKeywordOperations(keywords: seq<string>, adGroup: string) returns (operations: seq<Op>)
    ensures |operations| == |keywords|
    ensures forall i :: 0 <= i < |keywords| ==>
              operations[i] == CreateKeyword(KeywordEntry(keywords[i], DefaultBidMicros, Exact, adGroup))
    ensures operations == KeywordOps(keywords, adGroup)
  {
    var keywordPlanAdGroupKeywords: seq<KeywordEntry> := [];
    for k := 0 to |keywords|
      invariant |keywordPlanAdGroupKeywords| == k
      invariant forall i :: 0 <= i < k ==>
                  keywordPlanAdGroupKeywords[i] == KeywordEntry(keywords[i], DefaultBidMicros, Exact, adGroup)
    {
      keywordPlanAdGroupKeywords := keywordPlanAdGroupKeywords
        + [KeywordEntry(keywords[k], DefaultBidMicros, Exact, adGroup)];
    }
    operations := [];
    for k := 0 to |keywordPlanAdGroupKeywords|
      invariant |operations| == k
      invariant forall i :: 0 <= i < k ==> operations[i] == CreateKeyword(keywordPlanAdGroupKeywords[i])
    {
      operations := operations + [CreateKeyword(keywordPlanAdGroupKeywords[k])];
    }
  }
}

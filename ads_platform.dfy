/**
  The advertising platform as the keyword-planning core sees it.

  The SDK's service clients are replaced by `AdsClient`: every remote request
  is appended to `trace`, and the reply is whatever the `Platform` oracle
  gives for that request. Resource names are opaque strings chosen by the
  oracle; the model only relies on them being passed on unchanged.
*/
module AdsPlatform {
  import opened Wrappers

  /** The fixed account every request is made for. */
  const CustomerId: int := 1937727670

  /** Bid, in micros, used for the plan campaign, the ad group and every keyword. */
  const DefaultBidMicros: int := 1000000

  /** Language criterion id given to the plan campaign (the SDK's language constant 1000). */
  const DefaultLanguageCriterionId: int := 1000

  /** A failure reported by the platform (the SDK's ApiException). */
  datatype ApiError = ApiError(message: string)

  /** What the core reports to its caller instead of a result. */
  datatype Error =
    | InvalidArgument(message: string)
    | LogicError(message: string)
    | Remote(cause: ApiError)
      // getLanguageConstant is declared to return a string but finds no cached entry
    | LanguageConstantMissing(languageCode: string)

  datatype ForecastInterval = NextQuarter
  datatype Network = GoogleSearchAndPartners
  datatype MatchType = Exact

  /** One keyword of a plan ad group. */
  datatype KeywordEntry = KeywordEntry(text: string, cpcBidMicros: int, matchType: MatchType, adGroup: string)

  /** One mutate operation on the keyword-plan resource tree. */
  datatype Op =
    | CreatePlan(forecastInterval: ForecastInterval)
    | CreateCampaign(plan: string, network: Network, cpcBidMicros: int,
                     geoTarget: Option<string>, languageCriterionId: int)
    | CreateAdGroup(campaign: string, cpcBidMicros: int)
    | CreateKeyword(entry: KeywordEntry)
    | RemovePlan(removed: string)

  /** The seed of a keyword-ideas request: exactly one of the three. */
  datatype Seed =
    | UrlSeed(url: string)
    | KeywordSeed(keywords: seq<string>)
    | KeywordAndUrlSeed(url: string, keywords: seq<string>)

  datatype IdeaRequest = IdeaRequest(language: string, customerId: int, geoTargetConstants: seq<Option<string>>,
                                     network: Network, seed: Seed)

  datatype KeywordIdeaMetrics = KeywordIdeaMetrics(avgMonthlySearches: int, competition: int,
                                                   lowTopOfPageBidMicros: int, highTopOfPageBidMicros: int)

  /** One element of the keyword-ideas result stream. */
  datatype IdeaResult = IdeaResult(text: string, keywordIdeaMetrics: KeywordIdeaMetrics)

  datatype MonthlySearchVolume = MonthlySearchVolume(year: int, month: int, monthlySearches: int)

  datatype HistoricalKeywordMetrics = HistoricalKeywordMetrics(
    avgMonthlySearches: int, competitionIndex: int,
    lowTopOfPageBidMicros: int, highTopOfPageBidMicros: int,
    monthlySearchVolumes: seq<MonthlySearchVolume>)  // oldest month first

  /** The historical metrics of one search query matched by a plan. */
  datatype HistoricalMetric = HistoricalMetric(searchQuery: string, keywordMetrics: HistoricalKeywordMetrics)

  /** A remote request, as recorded in a client's trace. */
  datatype Call =
    | Mutate(customerId: int, ops: seq<Op>)
    | SuggestGeoTargets(locale: string, countryCode: string, locationNames: seq<string>)
    | Search(searchCustomerId: int, query: string)
    | GenerateIdeas(request: IdeaRequest)
    | GenerateHistorical(plan: string)

  /** The platform's answers: a fixed function per kind of request. */
  datatype Platform = Platform(
    mutate: seq<Op> -> Result<string, ApiError>,             // resource name of the first result
    suggestGeoTargets: (string, string, seq<string>) -> Result<seq<string>, ApiError>,
    search: (int, string) -> Result<seq<string>, ApiError>,  // language constant of each row
    generateIdeas: IdeaRequest -> Result<seq<IdeaResult>, ApiError>,
    generateHistorical: string -> Result<seq<HistoricalMetric>, ApiError>)

  /** Every series in a historical-metrics reply has at least one month. */
  predicate SeriesNonEmpty(metrics: seq<HistoricalMetric>)
  {
    forall i :: 0 <= i < |metrics| ==> |metrics[i].keywordMetrics.monthlySearchVolumes| > 0
  }

  /** The platform never answers a historical-metrics request with an empty series. */
  ghost predicate HistoricalSeriesNonEmpty(p: Platform)
  {
    forall plan :: p.generateHistorical(plan).Success? ==> SeriesNonEmpty(p.generateHistorical(plan).value)
  }

  /** An authenticated connection to the platform that records what it is asked. */
  class AdsClient {
    const platform: Platform
    var trace: seq<Call>

    constructor (platform: Platform)
      ensures this.platform == platform && trace == []
    {
      this.platform := platform;
      trace := [];
    }

    method MutateResources(customerId: int, ops: seq<Op>) returns (r: Result<string, ApiError>)
      modifies this
      ensures trace == old(trace) + [Mutate(customerId, ops)]
      ensures r == platform.mutate(ops)
    {
      trace := trace + [Mutate(customerId, ops)];
      r := platform.mutate(ops);
    }

    method SuggestGeoTargetConstants(locale: string, countryCode: string, locationNames: seq<string>)
      returns (r: Result<seq<string>, ApiError>)
      modifies this
      ensures trace == old(trace) + [SuggestGeoTargets(locale, countryCode, locationNames)]
      ensures r == platform.suggestGeoTargets(locale, countryCode, locationNames)
    {
      trace := trace + [SuggestGeoTargets(locale, countryCode, locationNames)];
      r := platform.suggestGeoTargets(locale, countryCode, locationNames);
    }

    method SearchRows(customerId: int, query: string) returns (r: Result<seq<string>, ApiError>)
      modifies this
      ensures trace == old(trace) + [Search(customerId, query)]
      ensures r == platform.search(customerId, query)
    {
      trace := trace + [Search(customerId, query)];
      r := platform.search(customerId, query);
    }

    method GenerateKeywordIdeas(request: IdeaRequest) returns (r: Result<seq<IdeaResult>, ApiError>)
      modifies this
      ensures trace == old(trace) + [GenerateIdeas(request)]
      ensures r == platform.generateIdeas(request)
    {
      trace := trace + [GenerateIdeas(request)];
      r := platform.generateIdeas(request);
    }

    method GenerateHistoricalMetrics(plan: string) returns (r: Result<seq<HistoricalMetric>, ApiError>)
      modifies this
      ensures trace == old(trace) + [GenerateHistorical(plan)]
      ensures r == platform.generateHistorical(plan)
    {
      trace := trace + [GenerateHistorical(plan)];
      r := platform.generateHistorical(plan);
    }
  }
}

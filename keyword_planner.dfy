/**
  The public facade: both entry points check that the request array names
  its keywords and its language code, then hand over to the manager.
*/
module KeyWordPlanner {
  import opened Wrappers
  import opened AdsPlatform
  import opened MetricTransform
  import opened Request
  import opened GoogleAdsService
  import opened AdsManager

  const InvalidDataMessage: string :=
    "Incoming data should contains keyWords array and languageCode string values"

  /** Both keys are present; their values, null included, are not looked at. */
  predicate IncomingDataValidation(data: RequestData): (ok: bool)
    ensures ok <==> {"keyWords", "languageCode"} <= data.Keys
  {
    "keyWords" in data && "languageCode" in data
  }

  /**
    The check reads keys, never values: rewriting any entry leaves the
    verdict as it was, and dropping either required key fails it.
  */
  lemma ValidationChecksKeysOnly(data: RequestData, key: string, v: Value)
    requires key in data
    ensures IncomingDataValidation(data[key := v]) == IncomingDataValidation(data)
    ensures !IncomingDataValidation(data - {"keyWords"})
    ensures !IncomingDataValidation(data - {"languageCode"})
  {
    assert data[key := v].Keys == data.Keys;
  }

  /** The rejection both entry points give to a request array that fails the check: nothing is called, nothing is cached. */
  function Rejected(caches: Caches): Run
  {
    Run([], caches, Failure(LogicError(InvalidDataMessage)))
  }

  /**
    getKeywordIdeaMetrics of the facade: a logic error exactly when the
    request array lacks a key, and otherwise the manager's run unchanged.
  */
  function PlannerIdeaRun(p: Platform, caches: Caches, data: RequestData, locationId: string): (run: Run)
    ensures run.result == Failure(LogicError(InvalidDataMessage)) <==> !IncomingDataValidation(data)
    ensures !IncomingDataValidation(data) ==> run.calls == [] && run.caches == caches
    ensures IncomingDataValidation(data) ==> run == IdeaMetricsRun(p, caches, data, locationId)
  {
    if !IncomingDataValidation(data) then Rejected(caches) else IdeaMetricsRun(p, caches, data, locationId)
  }

  /**
    getKeywordMetric of the facade: a logic error exactly when the request
    array lacks a key, and otherwise the manager's plan lifecycle unchanged.
  */
  ghost function PlannerKeywordMetricRun(p: Platform, caches: Caches, data: RequestData, locationId: string)
    : (run: Run)
    requires HistoricalSeriesNonEmpty(p)
    ensures run.result == Failure(LogicError(InvalidDataMessage)) <==> !IncomingDataValidation(data)
    ensures !IncomingDataValidation(data) ==> run.calls == [] && run.caches == caches
    ensures IncomingDataValidation(data) ==> run == KeywordMetricRun(p, caches, data, locationId)
  {
    if !IncomingDataValidation(data) then Rejected(caches) else KeywordMetricRun(p, caches, data, locationId)
  }

  /**
    The check only asks for the keys: a request array whose keywords and
    language code are both null passes it, and is then refused by the
    manager for want of a seed, still before any remote call.
  */
  lemma NullKeysPassValidationButHaveNoSeed(p: Platform, caches: Caches, locationId: string)
    ensures var data := map["keyWords" := Null, "languageCode" := Null];
            && IncomingDataValidation(data)
            && PlannerIdeaRun(p, caches, data, locationId).result == Failure(InvalidArgument(MissingSeedMessage))
            && PlannerIdeaRun(p, caches, data, locationId).calls == []
  {
    var data := map["keyWords" := Null, "languageCode" := Null];
    assert "pageUrl" !in data;
    IdeaSeedRequired(p, caches, data, locationId);
  }

  /** The key-value planner over one manager. */
  class GoogleKeyWordPlanner {
    const googleAdsManager: GoogleAdsManager

    constructor (googleAdsManager: GoogleAdsManager)
      ensures this.googleAdsManager == googleAdsManager
    {
      this.googleAdsManager := googleAdsManager;
    }

    method GetKeywordIdeaMetrics(data: RequestData, locationId: string) returns (r: Result<seq<KeywordRecord>, Error>)
      modifies googleAdsManager.client, googleAdsManager.cache
      ensures var run := PlannerIdeaRun(googleAdsManager.client.platform, old(googleAdsManager.cache.Contents()),
                                        data, locationId);
              && r == run.result
              && googleAdsManager.client.trace == old(googleAdsManager.client.trace) + run.calls
              && googleAdsManager.cache.geoTargetConstants == run.caches.geo
              && googleAdsManager.cache.languageConstants == run.caches.language
    {
      if !IncomingDataValidation(data) {
        return Failure(LogicError(InvalidDataMessage));
      }
      r := googleAdsManager.GetKeywordIdeaMetrics(data, locationId);
    }

    method GetKeywordMetric(data: RequestData, locationId: string) returns (r: Result<seq<KeywordRecord>, Error>)
      requires HistoricalSeriesNonEmpty(googleAdsManager.client.platform)
      modifies googleAdsManager.client, googleAdsManager.cache`geoTargetConstants
      ensures var run := PlannerKeywordMetricRun(googleAdsManager.client.platform,
                                                 old(googleAdsManager.cache.Contents()), data, locationId);
              && r == run.result
              && googleAdsManager.client.trace == old(googleAdsManager.client.trace) + run.calls
              && googleAdsManager.cache.geoTargetConstants == run.caches.geo
              && googleAdsManager.cache.languageConstants == run.caches.language
    {
      if !IncomingDataValidation(data) {
        return Failure(LogicError(InvalidDataMessage));
      }
      r := googleAdsManager.GetKeywordMetric(data, locationId);
    }
  }
}

/**
  The metric transformer: turns the platform's historical-metrics reply and
  its keyword-ideas stream into flat keyword records.
*/
module MetricTransform {
  import opened AdsPlatform

  /** The flat per-keyword record handed to the exporter. */
  datatype KeywordRecord = KeywordRecord(
    keyWord: string,
    avgMonthlySearches: int,
    competitionIndex: int,
    lowTopOfPageBidMicros: int,
    highTopOfPageBidMicros: int,
    searchesLastMonth: int,
    searchesLastYear: int,
    keySearchesFirstMonth: int)

  /** The three values derived from a monthly series. */
  datatype Window = Window(searchesLastMonth: int, searchesLastYear: int, keySearchesFirstMonth: int)

  /** The searches of each month, oldest first. */
  function MonthlySeries(volumes: seq<MonthlySearchVolume>): (series: seq<int>)
    ensures |series| == |volumes|
    ensures forall i :: 0 <= i < |volumes| ==> series[i] == volumes[i].monthlySearches
  {
    seq(|volumes|, i requires 0 <= i < |volumes| => volumes[i].monthlySearches)
  }

  /**
    Last month is the newest entry, first month the oldest. Last year is read
    twelve entries before last month, but only when that index is positive:
    index 0 is treated like a missing month.
  */
  function DeriveWindow(series: seq<int>): (w: Window)
    requires |series| > 0
    ensures w.searchesLastMonth == series[|series| - 1]
    ensures w.keySearchesFirstMonth == series[0]
    ensures |series| <= 13 ==> w.searchesLastYear == 0
    ensures |series| > 13 ==> w.searchesLastYear == series[|series| - 13]
  {
    var lastMonthKey := |series| - 1;
    var lastYearKey := lastMonthKey - 12;
    Window(series[lastMonthKey], if lastYearKey <= 0 then 0 else series[lastYearKey], series[0])
  }

  /** With a single month, first and last month coincide and last year is 0. */
  lemma SingleMonthWindow(x: int)
    ensures DeriveWindow([x]) == Window(x, 0, x)
  {
  }

  /** A thirteen-month series still reports 0 for last year, although its oldest entry is twelve months back. */
  lemma ThirteenMonthWindow()
    ensures DeriveWindow([10, 20, 30, 40, 50, 60, 70, 80, 90, 100, 110, 120, 130]) == Window(130, 0, 10)
  {
  }

  /** From fourteen months on, last year is the entry twelve months before the newest. */
  lemma FourteenMonthWindow()
    ensures DeriveWindow([10, 20, 30, 40, 50, 60, 70, 80, 90, 100, 110, 120, 130, 140]) == Window(140, 20, 10)
  {
  }

  /**
    Older history only moves the first month: once a series is longer than
    thirteen months, prepending earlier months leaves last month and last
    year as they were.
  */
  lemma {:induction false} OlderMonthsKeepRecentWindow(older: seq<int>, series: seq<int>)
    requires |series| > 13
    ensures DeriveWindow(older + series).searchesLastMonth == DeriveWindow(series).searchesLastMonth
    ensures DeriveWindow(older + series).searchesLastYear == DeriveWindow(series).searchesLastYear
  {
    var all := older + series;
    assert all[|all| - 1] == series[|series| - 1];
    assert all[|all| - 13] == series[|series| - 13];
  }

  /** The record of one historical-metrics entry: its own summary fields and the window of its series. */
  function HistoricalRecord(m: HistoricalMetric): (r: KeywordRecord)
    requires |m.keywordMetrics.monthlySearchVolumes| > 0
    ensures r.keyWord == m.searchQuery
    ensures r.avgMonthlySearches == m.keywordMetrics.avgMonthlySearches
    ensures r.competitionIndex == m.keywordMetrics.competitionIndex
    ensures r.lowTopOfPageBidMicros == m.keywordMetrics.lowTopOfPageBidMicros
    ensures r.highTopOfPageBidMicros == m.keywordMetrics.highTopOfPageBidMicros
    ensures var v := m.keywordMetrics.monthlySearchVolumes;
            && r.searchesLastMonth == v[|v| - 1].monthlySearches
            && r.keySearchesFirstMonth == v[0].monthlySearches
            && r.searchesLastYear == (if |v| <= 13 then 0 else v[|v| - 13].monthlySearches)
  {
    var k := m.keywordMetrics;
    var w := DeriveWindow(MonthlySeries(k.monthlySearchVolumes));
    KeywordRecord(m.searchQuery, k.avgMonthlySearches, k.competitionIndex,
                  k.lowTopOfPageBidMicros, k.highTopOfPageBidMicros,
                  w.searchesLastMonth, w.searchesLastYear, w.keySearchesFirstMonth)
  }

  function HistoricalRecords(metrics: seq<HistoricalMetric>): (records: seq<KeywordRecord>)
    requires SeriesNonEmpty(metrics)
  {
    seq(|metrics|, i requires 0 <= i < |metrics| => HistoricalRecord(metrics[i]))
  }

  /** One record per entry, in the platform's order. */
  method TransformHistoricalMetrics(metrics: seq<HistoricalMetric>) returns (records: seq<KeywordRecord>)
    requires SeriesNonEmpty(metrics)
    ensures |records| == |metrics|
    ensures forall i :: 0 <= i < |metrics| ==> records[i] == HistoricalRecord(metrics[i])
    ensures records == HistoricalRecords(metrics)
  {
    records := [];
    for indexKeyWords := 0 to |metrics|
      invariant |records| == indexKeyWords
      invariant forall i :: 0 <= i < indexKeyWords ==> records[i] == HistoricalRecord(metrics[i])
    {
      var historicalMetrics := metrics[indexKeyWords];
      var keyWordMetrics := historicalMetrics.keywordMetrics;
      var monthlySearchVolumes := keyWordMetrics.monthlySearchVolumes;
      var searches: seq<int> := [];
      for indexMonthlySearch := 0 to |monthlySearchVolumes|
        invariant |searches| == indexMonthlySearch
        invariant forall j :: 0 <= j < indexMonthlySearch ==> searches[j] == monthlySearchVolumes[j].monthlySearches
      {
        searches := searches + [monthlySearchVolumes[indexMonthlySearch].monthlySearches];
      }
      assert searches == MonthlySeries(monthlySearchVolumes);

      var lastMonthKey := |searches| - 1;
      var searchesLastMonth := searches[lastMonthKey];
      var lastYearKey := lastMonthKey - 12;
      var searchesLastYear;
      if lastYearKey <= 0 {
        searchesLastYear := 0;
      } else {
        searchesLastYear := searches[lastYearKey];
      }
      var keySearchesFirstMonth := searches[0];

      records := records + [KeywordRecord(
        historicalMetrics.searchQuery, keyWordMetrics.avgMonthlySearches, keyWordMetrics.competitionIndex,
        keyWordMetrics.lowTopOfPageBidMicros, keyWordMetrics.highTopOfPageBidMicros,
        searchesLastMonth, searchesLastYear, keySearchesFirstMonth)];
    }
  }

  /** The record of one keyword idea; the idea response has no monthly series, so the window fields are 0. */
  function IdeaRecord(result: IdeaResult): (r: KeywordRecord)
    ensures r.keyWord == result.text
    ensures r.avgMonthlySearches == result.keywordIdeaMetrics.avgMonthlySearches
    ensures r.competitionIndex == result.keywordIdeaMetrics.competition
    ensures r.lowTopOfPageBidMicros == result.keywordIdeaMetrics.lowTopOfPageBidMicros
    ensures r.highTopOfPageBidMicros == result.keywordIdeaMetrics.highTopOfPageBidMicros
    ensures r.searchesLastMonth == 0 && r.searchesLastYear == 0 && r.keySearchesFirstMonth == 0
  {
    var m := result.keywordIdeaMetrics;
    KeywordRecord(result.text, m.avgMonthlySearches, m.competition,
                  m.lowTopOfPageBidMicros, m.highTopOfPageBidMicros, 0, 0, 0)
  }

  /** The stream element at position `num` is kept: its text is a requested keyword and the position is below their count. */
  predicate Accepted(keywords: seq<string>, num: int, result: IdeaResult): (ok: bool)
    ensures ok <==> (exists i :: 0 <= i < |keywords| && keywords[i] == result.text) && num < |keywords|
  {
    result.text in keywords && num < |keywords|
  }

  /** The records emitted from position `num` of the stream on, up to the first rejected element. */
  function FilteredIdeasFrom(results: seq<IdeaResult>, keywords: seq<string>, num: nat): (out: seq<KeywordRecord>)
    requires num <= |results|
    decreases |results| - num
    ensures |out| <= |results| - num
    ensures forall j :: num <= j < num + |out| ==>
              Accepted(keywords, j, results[j]) && out[j - num] == IdeaRecord(results[j])
    ensures num + |out| < |results| ==> !Accepted(keywords, num + |out|, results[num + |out|])
    ensures out == [] || num + |out| <= |keywords|
  {
    if num < |results| && Accepted(keywords, num, results[num]) then
      [IdeaRecord(results[num])] + FilteredIdeasFrom(results, keywords, num + 1)
    else
      []
  }

  /**
    The idea filter: a prefix of the stream, every emitted text requested,
    never more records than keywords, and the walk ends at the first element
    that fails either test.
  */
  function FilteredIdeas(results: seq<IdeaResult>, keywords: seq<string>): (out: seq<KeywordRecord>)
    ensures |out| <= |results| && |out| <= |keywords|
    ensures forall i :: 0 <= i < |out| ==> out[i] == IdeaRecord(results[i]) && results[i].text in keywords
    ensures |out| < |results| ==> !(results[|out|].text in keywords && |out| < |keywords|)
  {
    FilteredIdeasFrom(results, keywords, 0)
  }

  /** Keywords a, b, c against the stream a, b, x, c: only a and b are emitted, c is never reached. */
  lemma StopsAtFirstRejectedIdea(results: seq<IdeaResult>)
    requires |results| == 4
    requires results[0].text == "a" && results[1].text == "b"
    requires results[2].text == "x" && results[3].text == "c"
    ensures FilteredIdeas(results, ["a", "b", "c"]) == [IdeaRecord(results[0]), IdeaRecord(results[1])]
  {
    var keywords := ["a", "b", "c"];
    assert "a" == keywords[0] && "b" == keywords[1];
    assert "x" !in keywords;
  }

  /** The foreach over the ideas stream with its `break`. */
  method FilterIdeaResults(results: seq<IdeaResult>, keywords: seq<string>) returns (records: seq<KeywordRecord>)
    ensures records == FilteredIdeas(results, keywords)
  {
    ghost var out := FilteredIdeas(results, keywords);
    records := [];
    var num := 0;
    while num < |results|
      invariant 0 <= num <= |results| && num <= |out|
      invariant records == out[..num]
    {
      var result := results[num];
      if result.text in keywords && num < |keywords| {
        records := records + [IdeaRecord(result)];
      } else {
        break;
      }
      num := num + 1;
    }
  }

}

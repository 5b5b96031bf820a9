/**
 * The two analysis dashboards. Each `processData` is a method on the state
 * it writes (the price table, the trend lines, the per-community
 * statistics and, in the refactored dashboard, the map locations and the
 * loading flag); the settings it reads are passed in as a value. The
 * effects that derive the district list and the top-N communities, and
 * the reset button, are functions from data and settings to new settings.
 */
module Dashboards {
  import opened Js
  import opened Seqs
  import opened Records
  import opened Trend
  import opened History
  import opened BasicStats
  import opened Pipeline

  /** The settings `processData` and the effects read. */
  datatype Settings = Settings(
    periodType: PeriodType,
    aggregation: Aggregation,
    topN: nat,
    selectedCommunities: seq<string>,
    startDate: string,
    endDate: string,
    selectedDistricts: seq<string>)

  /** The analysis state of the refactored dashboard. */
  class Dashboard {
    var isLoading: bool
    var priceHistory: seq<Row>
    var trendLines: map<string, TrendLine>
    var communityStats: seq<TrendStat>
    var communityLocations: seq<Location>

    /** The `useState` initial values. */
    constructor ()
      ensures !isLoading && priceHistory == []
      ensures trendLines == map[] && communityStats == [] && communityLocations == []
    {
      isLoading := false;
      priceHistory := [];
      trendLines := map[];
      communityStats := [];
      communityLocations := [];
    }

    /**
     * `processData`: with no data, only the loading flag is cleared; when
     * the filters leave nothing, nothing but the loading flag changes and
     * it stays set; otherwise the locations, the table (built in a new
     * array, with the trend fields written in), the trend lines and the
     * statistics are
     * those of the trend pass over the filtered records.
     */
    method ProcessData(data: seq<HouseRecord>, s: Settings)
      modifies this
      ensures var filtered := FilterRecords(data, s.selectedDistricts, s.startDate, s.endDate);
        filtered == [] ==>
          isLoading == (data != []) &&
          priceHistory == old(priceHistory) && trendLines == old(trendLines) &&
          communityStats == old(communityStats) && communityLocations == old(communityLocations)
      ensures var filtered := FilterRecords(data, s.selectedDistricts, s.startDate, s.endDate);
        filtered != [] ==>
          !isLoading &&
          communityLocations == CommunityLocations(filtered) &&
          Pass(priceHistory, trendLines, communityStats) == FitAll(
            ProcessHistoryData(filtered, s.selectedCommunities, s.periodType, s.aggregation),
            s.selectedCommunities, s.periodType, CalculateBasicStats(filtered))
    {
      // The flag is set on entry and cleared on every way out except the
      // one where the filters leave nothing; each branch writes its final value.
      hide *;
      var filtered := FilterRecords(data, s.selectedDistricts, s.startDate, s.endDate);
      if data == [] {
        isLoading := false;
        NoDataNoRecords(data, s);
      } else if filtered == [] {
        isLoading := true;
      } else {
        Show(filtered, s);
      }
    }

    /** The part of `processData` after the filters: locations, table, trend pass, flag cleared. */
    method Show(filtered: seq<HouseRecord>, s: Settings)
      modifies this
      ensures !isLoading && communityLocations == CommunityLocations(filtered)
      ensures Pass(priceHistory, trendLines, communityStats) == FitAll(
        ProcessHistoryData(filtered, s.selectedCommunities, s.periodType, s.aggregation),
        s.selectedCommunities, s.periodType, CalculateBasicStats(filtered))
    {
      hide *;
      var rows, trends, stats := Analyse(filtered, s.selectedCommunities, s.periodType, s.aggregation);
      var locations := CommunityLocations(filtered);
      isLoading, priceHistory, trendLines, communityStats, communityLocations := false, rows, trends, stats, locations;
    }
  }

  /** The analysis state of the dashboard the application renders (mean aggregation, no map). */
  class LiveDashboard {
    var priceHistory: seq<Row>
    var trendLines: map<string, TrendLine>
    var communityStats: seq<TrendStat>

    /** The `useState` initial values. */
    constructor ()
      ensures priceHistory == [] && trendLines == map[] && communityStats == []
    {
      priceHistory := [];
      trendLines := map[];
      communityStats := [];
    }

    /**
     * `processData`: nothing changes when there is no data or the filters
     * leave nothing; otherwise the table is the mean table of the filtered
     * records with the trend fields written in, and the trend lines and
     * statistics are those of the trend pass. The aggregation setting is
     * not read.
     */
    method ProcessData(data: seq<HouseRecord>, s: Settings)
      modifies this
      ensures var filtered := FilterRecords(data, s.selectedDistricts, s.startDate, s.endDate);
        filtered == [] ==>
          priceHistory == old(priceHistory) && trendLines == old(trendLines) &&
          communityStats == old(communityStats)
      ensures var filtered := FilterRecords(data, s.selectedDistricts, s.startDate, s.endDate);
        filtered != [] ==>
          Pass(priceHistory, trendLines, communityStats) == FitAll(
            ProcessHistoryData(filtered, s.selectedCommunities, s.periodType, MeanOf),
            s.selectedCommunities, s.periodType, CalculateBasicStats(filtered))
    {
      hide *;
      var filtered := FilterRecords(data, s.selectedDistricts, s.startDate, s.endDate);
      if data == [] {
        NoDataNoRecords(data, s);
      } else if filtered != [] {
        var rows, trends, stats := Analyse(filtered, s.selectedCommunities, s.periodType, MeanOf);
        priceHistory, trendLines, communityStats := rows, trends, stats;
      }
    }
  }

  /**
   * The analysis of the filtered records: basic statistics, the price
   * table, and the trend pass, which writes into a new array that is then
   * handed over as the table.
   */
  method Analyse(filtered: seq<HouseRecord>, communities: seq<string>, mode: PeriodType, agg: Aggregation)
    returns (rows: seq<Row>, trends: map<string, TrendLine>, stats: seq<TrendStat>)
    ensures Pass(rows, trends, stats)
         == FitAll(ProcessHistoryData(filtered, communities, mode, agg), communities, mode, CalculateBasicStats(filtered))
  {
    hide *;
    var basicStats := CalculateBasicStats(filtered);
    var history := ProcessHistoryData(filtered, communities, mode, agg);
    var table;
    table, trends, stats := AnalyseTable(history, communities, mode, basicStats);
    rows := table[..];
  }

  lemma NoDataNoRecords(data: seq<HouseRecord>, s: Settings)
    requires data == []
    ensures FilterRecords(data, s.selectedDistricts, s.startDate, s.endDate) == []
  {
  }

  // ------------------------------------------------------------ effects

  /**
   * The district-list effect: nothing without data; otherwise the
   * available districts are the data's sorted district list, and an empty
   * selection becomes all of them.
   */
  function DistrictsEffect(data: seq<HouseRecord>, s: Settings): (r: Option<(seq<string>, Settings)>)
    ensures r.None? <==> data == []
  {
    if |data| == 0 then None
    else
      var districts := DistrictList(data);
      Some((districts, if |s.selectedDistricts| == 0 then s.(selectedDistricts := districts) else s))
  }

  /**
   * After the district-list effect on nonempty data the available list is
   * the data's sorted district list; a nonempty selection is kept as it
   * was, and an empty one becomes that list, so it holds exactly the
   * districts of the data. The selection is never empty afterwards, and
   * nothing else in the settings changes.
   */
  lemma DistrictsEffectSelection(data: seq<HouseRecord>, s: Settings)
    requires data != []
    ensures var (available, s') := DistrictsEffect(data, s).value;
      available == DistrictList(data) &&
      s'.selectedDistricts == (if s.selectedDistricts == [] then available else s.selectedDistricts) &&
      s'.selectedDistricts != [] &&
      s' == s.(selectedDistricts := s'.selectedDistricts) &&
      (s.selectedDistricts == [] ==>
        StrictlyAscending(s'.selectedDistricts) &&
        forall d :: d in s'.selectedDistricts <==> exists x :: x in data && x.district == d)
  {
    assert data[0] in data;
  }

  /**
   * The top-N effect: nothing without data; otherwise the available and
   * the selected communities both become the top `topN` of the
   * district-filtered data.
   */
  function TopNEffect(data: seq<HouseRecord>, s: Settings): (r: Option<(seq<string>, Settings)>)
    ensures r.None? <==> data == []
    ensures r.Some? ==> r.value.1.selectedCommunities == r.value.0
  {
    if |data| == 0 then None
    else
      var top := TopCommunities(data, s.selectedDistricts, s.topN);
      Some((top, s.(selectedCommunities := top)))
  }

  /** The refactored dashboard's reset button: every setting back to its default, all districts selected. */
  function Reset(availableDistricts: seq<string>): (r: Settings)
  {
    Settings(Month, MeanOf, 5, [], [], [], availableDistricts)
  }

  /** The rendered dashboard's reset button, which has no aggregation setting to reset. */
  function LiveReset(s: Settings, availableDistricts: seq<string>): (r: Settings)
  {
    s.(startDate := [], endDate := [], selectedCommunities := [], periodType := Month, topN := 5,
       selectedDistricts := availableDistricts)
  }

  /**
   * After a reset with the data's own district list, the filters keep
   * every record: the date range is open and every district is selected.
   */
  lemma ResetKeepsAllRecords(data: seq<HouseRecord>, s: Settings)
    ensures var r := Reset(DistrictList(data));
      FilterRecords(data, r.selectedDistricts, r.startDate, r.endDate) == data
    ensures var r := LiveReset(s, DistrictList(data));
      FilterRecords(data, r.selectedDistricts, r.startDate, r.endDate) == data
  {
    var districts := DistrictList(data);
    if districts != [] {
      FilterKeepsAll(data, (x: HouseRecord) => x.district in districts);
    }
  }
}

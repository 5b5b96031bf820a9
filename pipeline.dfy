/**
 * The pieces of `processData` shared by both dashboards: the district and
 * date-range filters, the top-N community choice, the sorted district list,
 * and the per-community trend pass that writes `<community>_trend` values
 * into the history rows in place.
 */
module Pipeline {
  import opened Js
  import opened Seqs
  import opened Records
  import opened Trend
  import opened History
  import opened BasicStats

  // ------------------------------------------------------------ filters

  /** `filter(d => selectedDistricts.includes(d.行政區))`, skipped for an empty selection. */
  function DistrictFilter(records: seq<HouseRecord>, selected: seq<string>): (r: seq<HouseRecord>)
    ensures forall x :: x in r <==> x in records && (selected == [] || x.district in selected)
    ensures Subsequence(r, records)
    ensures selected == [] ==> r == records
  {
    if |selected| > 0 then
      FilterIsSubsequence(records, (x: HouseRecord) => x.district in selected);
      Filter(records, (x: HouseRecord) => x.district in selected)
    else
      SubsequenceRefl(records);
      records
  }

  /** A month label inside the inclusive range; an empty bound is no bound. */
  predicate InDateRange(month: string, startDate: string, endDate: string)
  {
    (startDate == [] || LexLe(startDate, month)) && (endDate == [] || LexLe(month, endDate))
  }

  /** The date filter on `formatDate(date, 'month')`, skipped when both bounds are empty. */
  function DateFilter(records: seq<HouseRecord>, startDate: string, endDate: string): (r: seq<HouseRecord>)
    ensures forall x :: x in r <==> x in records && InDateRange(FormatDate(x.date, Month), startDate, endDate)
    ensures Subsequence(r, records)
  {
    if startDate != [] || endDate != [] then
      FilterIsSubsequence(records, (x: HouseRecord) => InDateRange(FormatDate(x.date, Month), startDate, endDate));
      Filter(records, (x: HouseRecord) => InDateRange(FormatDate(x.date, Month), startDate, endDate))
    else
      SubsequenceRefl(records);
      records
  }

  /** `filteredData` after both filters. */
  function FilterRecords(records: seq<HouseRecord>, districts: seq<string>, startDate: string, endDate: string): (r: seq<HouseRecord>)
    ensures forall x :: x in r <==>
      x in records && (districts == [] || x.district in districts) &&
      InDateRange(FormatDate(x.date, Month), startDate, endDate)
  {
    DateFilter(DistrictFilter(records, districts), startDate, endDate)
  }

  // ------------------------------------------------------------ top N

  /** `calculateBasicStats(filtered).slice(0, topN).map(s => s.name)`. */
  function TopCommunities(records: seq<HouseRecord>, districts: seq<string>, topN: nat): (r: seq<string>)
  {
    var names := NameList(CalculateBasicStats(DistrictFilter(records, districts)));
    names[..if topN <= |names| then topN else |names|]
  }

  /** A prefix of a name list without duplicates, over a list covering `names`. */
  lemma NamePrefix(stats: seq<CommunityStat>, names: seq<string>, k: nat)
    requires k <= |stats| && NoDup(NameList(stats))
    requires forall n :: n in NameList(stats) <==> n in names
    ensures var r := NameList(stats)[..k];
      |r| == k && NoDup(r) && (forall n :: n in r ==> n in names) &&
      (k == |stats| ==> forall n :: n in names ==> n in r)
  {
    assert k == |stats| ==> NameList(stats)[..k] == NameList(stats);
  }

  /**
   * The top-N choice: at most `topN` distinct communities of the
   * district-filtered data, and as many as there are up to `topN`.
   */
  lemma TopCommunitiesShape(records: seq<HouseRecord>, districts: seq<string>, topN: nat)
    ensures var r := TopCommunities(records, districts, topN);
      var names := Names(DistrictFilter(records, districts));
      |r| <= topN && NoDup(r) &&
      (forall n :: n in r ==> n in names) &&
      (|r| == topN || forall n :: n in names ==> n in r)
  {
    var filtered := DistrictFilter(records, districts);
    var stats := CalculateBasicStats(filtered);
    var k := if topN <= |stats| then topN else |stats|;
    StatNamesDistinct(filtered);
    forall n ensures n in NameList(stats) <==> n in Names(filtered) {
      StatNamesCover(filtered, n);
    }
    NamePrefix(stats, Names(filtered), k);
  }

  /** In a list sorted by descending count, a name past position `k` counts no more than one before it. */
  lemma PrefixCounts(stats: seq<CommunityStat>, k: nat, a: string, b: string)
    requires k <= |stats| && CountsDescending(stats)
    requires a in NameList(stats)[..k]
    requires b in NameList(stats) && b !in NameList(stats)[..k]
    ensures exists i, j ::
      0 <= i < |stats| && 0 <= j < |stats| &&
      stats[i].name == a && stats[j].name == b && stats[j].count <= stats[i].count
  {
    var r := NameList(stats)[..k];
    var i :| 0 <= i < k && r[i] == a;
    var j :| 0 <= j < |stats| && NameList(stats)[j] == b;
    assert j >= k;
    assert stats[i].name == a && stats[j].name == b;
  }

  /** A community left out of the top N has no more records than any chosen one. */
  lemma TopCommunitiesMostRecords(records: seq<HouseRecord>, districts: seq<string>, topN: nat, a: string, b: string)
    requires a in TopCommunities(records, districts, topN)
    requires b in Names(DistrictFilter(records, districts))
    requires b !in TopCommunities(records, districts, topN)
    ensures var names := Names(DistrictFilter(records, districts));
      Occurrences(names, b) <= Occurrences(names, a)
  {
    var filtered := DistrictFilter(records, districts);
    var stats := CalculateBasicStats(filtered);
    var k := if topN <= |stats| then topN else |stats|;
    StatNamesCover(filtered, b);
    PrefixCounts(stats, k, a, b);
    var i, j :| 0 <= i < |stats| && 0 <= j < |stats| &&
      stats[i].name == a && stats[j].name == b && stats[j].count <= stats[i].count;
    StatCount(filtered, stats[i]);
    StatCount(filtered, stats[j]);
  }

  // ------------------------------------------------------------ districts

  /** Every label in `s` comes strictly after `p`. */
  predicate AllAfter(p: string, s: seq<string>)
  {
    forall k :: 0 <= k < |s| ==> LexLt(p, s[k])
  }

  predicate StrictlyAscending(s: seq<string>)
  {
    forall i, j :: 0 <= i < j < |s| ==> LexLt(s[i], s[j])
  }

  function InsertString(x: string, s: seq<string>): (r: seq<string>)
    ensures multiset(r) == multiset(s) + multiset{x}
  {
    if s == [] || LexLt(x, s[0]) then [x] + s
    else
      assert s == [s[0]] + s[1..];
      [s[0]] + InsertString(x, s[1..])
  }

  lemma ConsStrictlyAscending(x: string, s: seq<string>)
    requires StrictlyAscending(s) && AllAfter(x, s)
    ensures StrictlyAscending([x] + s)
  {
    var r := [x] + s;
    forall i, j | 0 <= i < j < |r| ensures LexLt(r[i], r[j]) {
      if i == 0 { assert r[j] == s[j - 1]; } else { assert r[i] == s[i - 1] && r[j] == s[j - 1]; }
    }
  }

  lemma {:induction false} InsertStringAscending(x: string, s: seq<string>)
    requires StrictlyAscending(s) && x !in s
    ensures StrictlyAscending(InsertString(x, s))
  {
    if s == [] {
    } else if LexLt(x, s[0]) {
      forall k | 0 <= k < |s| ensures LexLt(x, s[k]) {
        if k > 0 { LexLtTrans(x, s[0], s[k]); }
      }
      ConsStrictlyAscending(x, s);
    } else {
      LexNotLe(x, s[0]);
      InsertStringAscending(x, s[1..]);
      var t := InsertString(x, s[1..]);
      forall k | 0 <= k < |t| ensures LexLt(s[0], t[k]) {
        assert t[k] in multiset(s[1..]) + multiset{x};
      }
      ConsStrictlyAscending(s[0], t);
    }
  }

  /** `Array.prototype.sort()` on distinct strings. */
  function SortStrings(s: seq<string>): (r: seq<string>)
    requires NoDup(s)
    ensures StrictlyAscending(r)
    ensures multiset(r) == multiset(s)
  {
    if s == [] then []
    else
      assert s == [s[0]] + s[1..];
      var t := SortStrings(s[1..]);
      assert s[0] !in multiset(s[1..]);
      assert s[0] !in multiset(t);
      InsertStringAscending(s[0], t);
      InsertString(s[0], t)
  }

  function Districts(records: seq<HouseRecord>): (ds: seq<string>)
    ensures |ds| == |records|
    ensures forall i :: 0 <= i < |records| ==> ds[i] == records[i].district
  {
    seq(|records|, i requires 0 <= i < |records| => records[i].district)
  }

  /**
   * `Array.from(new Set(data.map(d => d.行政區))).sort()`: every district of
   * the data exactly once, in ascending string order.
   */
  function DistrictList(records: seq<HouseRecord>): (r: seq<string>)
    ensures StrictlyAscending(r)
    ensures forall d :: d in r <==> exists x :: x in records && x.district == d
  {
    hide *;
    var distinct := Dedup(Districts(records));
    var r := SortStrings(distinct);
    forall d ensures d in r <==> d in distinct {
      if d in r { assert d in multiset(r); }
      if d in distinct { assert d in multiset(distinct); }
    }
    forall d ensures d in Districts(records) <==> exists x :: x in records && x.district == d {
      if x :| x in records && x.district == d {
        var i :| 0 <= i < |records| && records[i] == x;
        assert Districts(records)[i] == d;
      }
    }
    r
  }

  // ------------------------------------------------------------ trend pass

  /** Positions from `from` on of the rows that hold a value for `c`, ascending. */
  function PresentFrom(rows: seq<Row>, c: string, from: nat): (idx: seq<nat>)
    decreases |rows| - from
    ensures forall k :: 0 <= k < |idx| ==> from <= idx[k] < |rows| && c in rows[idx[k]].values
    ensures forall i :: from <= i < |rows| && c in rows[i].values ==> i in idx
    ensures forall a, b :: 0 <= a < b < |idx| ==> idx[a] < idx[b]
  {
    if from >= |rows| then []
    else if c in rows[from].values then [from] + PresentFrom(rows, c, from + 1)
    else PresentFrom(rows, c, from + 1)
  }

  /** `validIndices`: the positions of the rows holding a value for `c`, ascending. */
  function ValidIndices(rows: seq<Row>, c: string): (idx: seq<nat>)
    ensures forall k :: 0 <= k < |idx| ==> idx[k] < |rows| && c in rows[idx[k]].values
    ensures forall i :: 0 <= i < |rows| && c in rows[i].values ==> i in idx
    ensures forall a, b :: 0 <= a < b < |idx| ==> idx[a] < idx[b]
  {
    PresentFrom(rows, c, 0)
  }

  /** The prices of `communityData`, in row order. */
  function SeriesPrices(rows: seq<Row>, c: string): (ps: seq<real>)
    ensures |ps| == |ValidIndices(rows, c)|
  {
    var idx := ValidIndices(rows, c);
    seq(|idx|, k requires 0 <= k < |idx| => rows[idx[k]].values[c])
  }

  /** The periods of `communityData`, in row order. */
  function SeriesPeriods(rows: seq<Row>, c: string): (ls: seq<string>)
    ensures |ls| == |ValidIndices(rows, c)|
  {
    var idx := ValidIndices(rows, c);
    seq(|idx|, k requires 0 <= k < |idx| => rows[idx[k]].period)
  }

  /** `calculateTrendLine(prices, periods, periodType)` on the community's series. */
  function SeriesLine(rows: seq<Row>, c: string, mode: PeriodType): TrendLine
  {
    CalculateTrendLine(SeriesPrices(rows, c), SeriesPeriods(rows, c), mode)
  }

  /** `trendAnalysis.intercept + trendAnalysis.slope * monthsSinceStart`. */
  function TrendValue(line: TrendLine, offset: nat): Num
  {
    Add(line.intercept, Scale(line.slope, offset as real))
  }

  /** The table after writing `c`'s trend into rows `start` up to, not including, `stop`. */
  function WithTrend(rows: seq<Row>, c: string, line: TrendLine, start: nat, stop: nat): (r: seq<Row>)
    requires start <= stop <= |rows|
    ensures |r| == |rows|
    ensures forall i :: 0 <= i < |rows| ==> r[i].period == rows[i].period && r[i].values == rows[i].values
    ensures forall i :: 0 <= i < |rows| && !(start <= i < stop) ==> r[i] == rows[i]
    ensures forall i :: start <= i < stop ==> r[i].trends == rows[i].trends[c := TrendValue(line, i - start)]
  {
    seq(|rows|, i requires 0 <= i < |rows| =>
      if start <= i < stop then rows[i].(trends := rows[i].trends[c := TrendValue(line, i - start)])
      else rows[i])
  }

  /** The `for (let i = startIndex; i <= endIndex; i++)` write-back loop. */
  method WriteTrend(history: array<Row>, c: string, line: TrendLine, start: nat, end: nat)
    requires start <= end < history.Length
    modifies history
    ensures history[..] == WithTrend(old(history[..]), c, line, start, end + 1)
  {
    var i := start;
    while i <= end
      invariant start <= i <= end + 1
      invariant history[..] == WithTrend(old(history[..]), c, line, start, i)
    {
      history[i] := history[i].(trends := history[i].trends[c := TrendValue(line, i - start)]);
      i := i + 1;
    }
  }

  /** An entry of `stats`: the community's basic statistic (if found) with its trend. */
  datatype TrendStat = TrendStat(stat: Option<CommunityStat>, trendSlope: Num, r2Score: Num)

  /** The state of the trend pass: the table, `trends` and `stats`. */
  datatype Pass = Pass(rows: seq<Row>, trends: map<string, TrendLine>, stats: seq<TrendStat>)

  /** One iteration of `selectedCommunities.forEach`. */
  function FitOne(p: Pass, c: string, mode: PeriodType, basic: seq<CommunityStat>): Pass
  {
    var idx := ValidIndices(p.rows, c);
    if |idx| < 2 then p
    else
      var line := SeriesLine(p.rows, c, mode);
      Pass(
        WithTrend(p.rows, c, line, idx[0], idx[|idx| - 1] + 1),
        p.trends[c := line],
        p.stats + [TrendStat(FindStat(basic, c), line.slope, line.r2)])
  }

  /** The whole trend pass over `communities`, in order. */
  function FitAll(rows: seq<Row>, communities: seq<string>, mode: PeriodType, basic: seq<CommunityStat>): (p: Pass)
    ensures |p.rows| == |rows|
    decreases |communities|
  {
    if communities == [] then Pass(rows, map[], [])
    else
      var n := |communities| - 1;
      FitOne(FitAll(rows, communities[..n], mode, basic), communities[n], mode, basic)
  }

  /** `setPriceHistory(history)` followed by the trend pass on that same table. */
  method AnalyseTable(history: seq<Row>, communities: seq<string>, mode: PeriodType, basic: seq<CommunityStat>)
    returns (table: array<Row>, trends: map<string, TrendLine>, stats: seq<TrendStat>)
    ensures fresh(table)
    ensures Pass(table[..], trends, stats) == FitAll(history, communities, mode, basic)
  {
    table := new Row[|history|](i requires 0 <= i < |history| => history[i]);
    assert table[..] == history;
    trends, stats := FitTrends(table, communities, mode, basic);
  }

  lemma FitAllNone(rows: seq<Row>, mode: PeriodType, basic: seq<CommunityStat>)
    ensures FitAll(rows, [], mode, basic) == Pass(rows, map[], [])
  {
  }

  lemma FitAllStep(rows: seq<Row>, communities: seq<string>, k: nat, mode: PeriodType, basic: seq<CommunityStat>)
    requires k < |communities|
    ensures FitAll(rows, communities[..k + 1], mode, basic)
         == FitOne(FitAll(rows, communities[..k], mode, basic), communities[k], mode, basic)
  {
    assert communities[..k + 1][..k] == communities[..k];
  }

  lemma FitOneFitted(p: Pass, c: string, mode: PeriodType, basic: seq<CommunityStat>)
    requires |ValidIndices(p.rows, c)| >= 2
    ensures var idx := ValidIndices(p.rows, c);
      var line := SeriesLine(p.rows, c, mode);
      FitOne(p, c, mode, basic) == Pass(
        WithTrend(p.rows, c, line, idx[0], idx[|idx| - 1] + 1),
        p.trends[c := line],
        p.stats + [TrendStat(FindStat(basic, c), line.slope, line.r2)])
  {
    hide SeriesLine;
  }

  /** One iteration of the `forEach`, writing `c`'s trend into `history` in place. */
  method FitStep(history: array<Row>, c: string, mode: PeriodType, basic: seq<CommunityStat>,
                 trends: map<string, TrendLine>, stats: seq<TrendStat>)
    returns (trends': map<string, TrendLine>, stats': seq<TrendStat>)
    modifies history
    ensures Pass(history[..], trends', stats') == FitOne(Pass(old(history[..]), trends, stats), c, mode, basic)
  {
    hide SeriesLine;
    var rows := history[..];
    var idx := ValidIndices(rows, c);
    if |idx| < 2 {
      trends', stats' := trends, stats;
    } else {
      var line := SeriesLine(rows, c, mode);
      FitOneFitted(Pass(rows, trends, stats), c, mode, basic);
      WriteTrend(history, c, line, idx[0], idx[|idx| - 1]);
      trends', stats' := trends[c := line], stats + [TrendStat(FindStat(basic, c), line.slope, line.r2)];
    }
  }

  /** The trend pass of `processData`, writing the trends into `history` in place. */
  method FitTrends(history: array<Row>, communities: seq<string>, mode: PeriodType, basic: seq<CommunityStat>)
    returns (trends: map<string, TrendLine>, stats: seq<TrendStat>)
    modifies history
    ensures Pass(history[..], trends, stats) == FitAll(old(history[..]), communities, mode, basic)
  {
    trends := map[];
    stats := [];
    var k := 0;
    assert communities[..0] == [];
    while k < |communities|
      invariant 0 <= k <= |communities|
      invariant Pass(history[..], trends, stats) == FitAll(old(history[..]), communities[..k], mode, basic)
    {
      trends, stats := FitStep(history, communities[k], mode, basic, trends, stats);
      FitAllStep(old(history[..]), communities, k, mode, basic);
      k := k + 1;
    }
    assert communities[..|communities|] == communities;
  }

  // ------------------------------------------------------------ trend pass properties

  /** Two tables with the same periods and values, whatever their trend fields. */
  predicate SameTable(a: seq<Row>, b: seq<Row>)
  {
    |a| == |b| && forall i :: 0 <= i < |a| ==> a[i].period == b[i].period && a[i].values == b[i].values
  }

  lemma {:induction false} PresentFromSameTable(a: seq<Row>, b: seq<Row>, c: string, from: nat)
    requires SameTable(a, b)
    ensures PresentFrom(a, c, from) == PresentFrom(b, c, from)
    decreases |a| - from
  {
    if from < |a| {
      PresentFromSameTable(a, b, c, from + 1);
    }
  }

  /** A community's series reads only periods and values, so trend fields never change it. */
  lemma SeriesOfSameTable(a: seq<Row>, b: seq<Row>, c: string, mode: PeriodType)
    requires SameTable(a, b)
    ensures ValidIndices(a, c) == ValidIndices(b, c)
    ensures SeriesPrices(a, c) == SeriesPrices(b, c)
    ensures SeriesPeriods(a, c) == SeriesPeriods(b, c)
    ensures SeriesLine(a, c, mode) == SeriesLine(b, c, mode)
  {
    PresentFromSameTable(a, b, c, 0);
  }

  /** The trend pass changes no period and no price of the table. */
  lemma {:induction false} FitAllKeepsTable(rows: seq<Row>, communities: seq<string>, mode: PeriodType, basic: seq<CommunityStat>)
    ensures SameTable(FitAll(rows, communities, mode, basic).rows, rows)
    decreases |communities|
  {
    hide SeriesLine;
    if communities != [] {
      var n := |communities| - 1;
      FitAllKeepsTable(rows, communities[..n], mode, basic);
    }
  }

  /** The communities that get a trend: those with values in at least two rows. */
  predicate Fittable(rows: seq<Row>, c: string)
  {
    |ValidIndices(rows, c)| >= 2
  }

  /** One iteration records the fit of `d` exactly when `d` has two values. */
  lemma FitOneTrends(p: Pass, rows: seq<Row>, d: string, mode: PeriodType, basic: seq<CommunityStat>)
    requires SameTable(p.rows, rows)
    ensures FitOne(p, d, mode, basic).trends
         == if Fittable(rows, d) then p.trends[d := SeriesLine(rows, d, mode)] else p.trends
  {
    hide SeriesLine;
    SeriesOfSameTable(p.rows, rows, d, mode);
  }

  /**
   * `trends` holds a line exactly for the selected communities with values
   * in at least two periods, and that line is the fit of the community's
   * own series in the original table.
   */
  lemma {:induction false} FitAllTrends(rows: seq<Row>, communities: seq<string>, mode: PeriodType, basic: seq<CommunityStat>, c: string)
    ensures var p := FitAll(rows, communities, mode, basic);
      (c in p.trends <==> c in communities && Fittable(rows, c)) &&
      (c in p.trends ==> p.trends[c] == SeriesLine(rows, c, mode))
    decreases |communities|
  {
    hide *;
    if communities == [] {
      FitAllNone(rows, mode, basic);
    } else {
      var n := |communities| - 1;
      FitAllTrends(rows, communities[..n], mode, basic, c);
      FitAllKeepsTable(rows, communities[..n], mode, basic);
      FitAllStep(rows, communities, n, mode, basic);
      assert communities[..n + 1] == communities;
      FitOneTrends(FitAll(rows, communities[..n], mode, basic), rows, communities[n], mode, basic);
      SnocMembers(communities, c);
    }
  }

  /** The communities of `communities` that get a trend, in order. */
  function Fitted(rows: seq<Row>, communities: seq<string>): seq<string>
  {
    Filter(communities, (c: string) => Fittable(rows, c))
  }

  /** The `stats` entry of a fitted community. */
  function TrendStatOf(rows: seq<Row>, c: string, mode: PeriodType, basic: seq<CommunityStat>): TrendStat
  {
    var line := SeriesLine(rows, c, mode);
    TrendStat(FindStat(basic, c), line.slope, line.r2)
  }

  lemma FitOneStats(p: Pass, rows: seq<Row>, d: string, mode: PeriodType, basic: seq<CommunityStat>)
    requires SameTable(p.rows, rows)
    ensures FitOne(p, d, mode, basic).stats
         == p.stats + if Fittable(rows, d) then [TrendStatOf(rows, d, mode, basic)] else []
  {
    hide SeriesLine;
    SeriesOfSameTable(p.rows, rows, d, mode);
  }

  /** The `stats` entries of the fitted communities `fitted`, in order. */
  function TrendStats(rows: seq<Row>, fitted: seq<string>, mode: PeriodType, basic: seq<CommunityStat>): (r: seq<TrendStat>)
    ensures |r| == |fitted|
    ensures forall k :: 0 <= k < |fitted| ==> r[k] == TrendStatOf(rows, fitted[k], mode, basic)
    decreases |fitted|
  {
    hide *;
    if fitted == [] then []
    else
      var n := |fitted| - 1;
      TrendStats(rows, fitted[..n], mode, basic) + [TrendStatOf(rows, fitted[n], mode, basic)]
  }

  /**
   * `stats` has one entry per fitted community, in selection order: the
   * community's basic statistic extended with its line's slope and R².
   */
  lemma {:induction false} FitAllStats(rows: seq<Row>, communities: seq<string>, mode: PeriodType, basic: seq<CommunityStat>)
    ensures FitAll(rows, communities, mode, basic).stats == TrendStats(rows, Fitted(rows, communities), mode, basic)
    decreases |communities|
  {
    hide SeriesLine;
    if communities != [] {
      var n := |communities| - 1;
      var d := communities[n];
      FitAllStats(rows, communities[..n], mode, basic);
      FitAllKeepsTable(rows, communities[..n], mode, basic);
      FitOneStats(FitAll(rows, communities[..n], mode, basic), rows, d, mode, basic);
      TrendStatsSnoc(rows, communities, mode, basic);
    }
  }

  lemma TrendStatsSnoc(rows: seq<Row>, communities: seq<string>, mode: PeriodType, basic: seq<CommunityStat>)
    requires |communities| > 0
    ensures var n := |communities| - 1;
      var d := communities[n];
      TrendStats(rows, Fitted(rows, communities), mode, basic)
        == TrendStats(rows, Fitted(rows, communities[..n]), mode, basic)
           + if Fittable(rows, d) then [TrendStatOf(rows, d, mode, basic)] else []
  {
    hide SeriesLine, TrendStatOf, TrendStats, Fittable, ValidIndices;
    var n := |communities| - 1;
    FilterSnoc(communities, (c: string) => Fittable(rows, c));
    if Fittable(rows, communities[n]) {
      TrendStatsSnoc1(rows, Fitted(rows, communities[..n]), communities[n], mode, basic);
    }
  }

  lemma TrendStatsSnoc1(rows: seq<Row>, fitted: seq<string>, d: string, mode: PeriodType, basic: seq<CommunityStat>)
    ensures TrendStats(rows, fitted + [d], mode, basic) == TrendStats(rows, fitted, mode, basic) + [TrendStatOf(rows, d, mode, basic)]
  {
    hide SeriesLine;
    assert (fitted + [d])[..|fitted|] == fitted;
  }

  lemma SnocMembers<T>(s: seq<T>, x: T)
    requires |s| > 0
    ensures x in s <==> x in s[..|s| - 1] || x == s[|s| - 1]
  {
    assert s == s[..|s| - 1] + [s[|s| - 1]];
  }

  /** Row `i` lies between the first and last rows holding a value for `c`, which are distinct. */
  predicate Covers(rows: seq<Row>, c: string, i: int)
  {
    var idx := ValidIndices(rows, c);
    |idx| >= 2 && idx[0] <= i <= idx[|idx| - 1]
  }

  /** `monthsSinceStart`: the distance from the first row holding a value for `c`. */
  function Offset(rows: seq<Row>, c: string, i: int): nat
    requires Covers(rows, c, i)
  {
    i - ValidIndices(rows, c)[0]
  }

  lemma FitOneCell(p: Pass, rows: seq<Row>, d: string, mode: PeriodType, basic: seq<CommunityStat>, i: int)
    requires SameTable(p.rows, rows) && 0 <= i < |rows|
    ensures FitOne(p, d, mode, basic).rows[i].trends
         == if Covers(rows, d, i) then p.rows[i].trends[d := TrendValue(SeriesLine(rows, d, mode), Offset(rows, d, i))]
            else p.rows[i].trends
  {
    hide SeriesLine, SeriesPrices, SeriesPeriods, FindStat, TrendValue, CalculateTrendLine;
    SeriesOfSameTable(p.rows, rows, d, mode);
  }

  /**
   * The `<community>_trend` fields after the pass: row `i` carries the
   * trend of every selected community whose first and last rows with a
   * value enclose it, valued `intercept + slope * (i - first)`; every
   * other trend field of the row is as before.
   */
  lemma {:induction false} FitAllCell(rows: seq<Row>, communities: seq<string>, mode: PeriodType, basic: seq<CommunityStat>, i: int, c: string)
    requires 0 <= i < |rows|
    ensures var t := FitAll(rows, communities, mode, basic).rows[i].trends;
      if c in communities && Covers(rows, c, i) then
        c in t && t[c] == TrendValue(SeriesLine(rows, c, mode), Offset(rows, c, i))
      else
        (c in t <==> c in rows[i].trends) && (c in t ==> t[c] == rows[i].trends[c])
    decreases |communities|
  {
    hide *;
    if communities == [] {
      FitAllNone(rows, mode, basic);
    } else {
      var n := |communities| - 1;
      var d := communities[n];
      var q := FitAll(rows, communities[..n], mode, basic);
      var t := FitAll(rows, communities, mode, basic).rows[i].trends;
      FitAllCell(rows, communities[..n], mode, basic, i, c);
      FitAllKeepsTable(rows, communities[..n], mode, basic);
      FitAllStep(rows, communities, n, mode, basic);
      assert communities[..n + 1] == communities;
      FitOneCell(q, rows, d, mode, basic, i);
      SnocMembers(communities, c);
      if c != d || !Covers(rows, d, i) {
        assert c in t <==> c in q.rows[i].trends;
        assert c in t ==> t[c] == q.rows[i].trends[c];
      }
    }
  }

  // ------------------------------------------------------------ the pass over a fresh table

  /** A community with a value in the table is selected and present in the records, so its statistic is found. */
  lemma FittedHasStat(records: seq<HouseRecord>, communities: seq<string>, mode: PeriodType, agg: Aggregation, c: string)
    requires |ValidIndices(ProcessHistoryData(records, communities, mode, agg), c)| > 0
    ensures c in communities && c in Names(records)
    ensures FindStat(CalculateBasicStats(records), c) == Some(StatOf(records, c))
  {
    var h := ProcessHistoryData(records, communities, mode, agg);
    ValueHasRecord(records, communities, mode, agg, h[ValidIndices(h, c)[0]], c);
    FindStatOfPresent(records, c);
  }

  lemma ValueHasRecord(records: seq<HouseRecord>, communities: seq<string>, mode: PeriodType, agg: Aggregation, row: Row, c: string)
    requires row in ProcessHistoryData(records, communities, mode, agg) && c in row.values
    ensures c in communities && c in Names(records)
  {
    HistoryPresence(records, communities, mode, agg, row, c);
    var t :| t in Tag(records, mode) && t.record.community == c && t.period == row.period;
    TaggedName(records, mode, t);
  }

  lemma TaggedName(records: seq<HouseRecord>, mode: PeriodType, t: Tagged)
    requires t in Tag(records, mode)
    ensures t.record.community in Names(records)
  {
    var ts := Tag(records, mode);
    var j :| 0 <= j < |ts| && ts[j] == t;
    assert Names(records)[j] == t.record.community;
  }

  /**
   * On the table `processHistoryData` builds, the `find` for a fitted
   * community never comes back empty: with FitAllStats, every `stats`
   * entry carries the community's own basic statistic.
   */
  lemma PassStats(records: seq<HouseRecord>, communities: seq<string>, mode: PeriodType, agg: Aggregation, c: string)
    requires c in Fitted(ProcessHistoryData(records, communities, mode, agg), communities)
    ensures c in Names(records) &&
      TrendStatOf(ProcessHistoryData(records, communities, mode, agg), c, mode, CalculateBasicStats(records)).stat
        == Some(StatOf(records, c))
  {
    FittedHasStat(records, communities, mode, agg, c);
  }

  /**
   * On the table `processHistoryData` builds, which has no trend fields,
   * row `i` ends up with a trend for `c` exactly when `c` is selected and
   * row `i` lies between its first and last rows with a value.
   */
  lemma PassCells(records: seq<HouseRecord>, communities: seq<string>, mode: PeriodType, agg: Aggregation, i: int, c: string)
    requires 0 <= i < |ProcessHistoryData(records, communities, mode, agg)|
    ensures var h := ProcessHistoryData(records, communities, mode, agg);
      var t := FitAll(h, communities, mode, CalculateBasicStats(records)).rows[i].trends;
      (c in t <==> c in communities && Covers(h, c, i)) &&
      (c in t ==> t[c] == TrendValue(SeriesLine(h, c, mode), Offset(h, c, i)))
  {
    var h := ProcessHistoryData(records, communities, mode, agg);
    HistoryPresence(records, communities, mode, agg, h[i], c);
    FitAllCell(h, communities, mode, CalculateBasicStats(records), i, c);
  }
}

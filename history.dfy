/**
 * `processHistoryData`: the sparse per-period price table.
 *
 * Records of the selected communities are bucketed by period label; each
 * bucket becomes one row holding, for every selected community with at
 * least one record in the bucket, the mean of its prices (or the element
 * at index `floor(n/2)` of its ascending-sorted prices in median mode).
 * Rows are ordered by label in JavaScript string order.
 */
module History {
  import opened Js
  import opened Seqs
  import opened RealSeqs
  import opened Records

  datatype Aggregation = MeanOf | MedianOf

  /**
   * One row of the table: its period label and one value per community
   * present in that period. (The `<community>_trend` values written later
   * by the driver are kept in their own map.)
   */
  datatype Row = Row(period: string, values: map<string, real>, trends: map<string, Num>)

  /** A record with its period label attached (`{...d, periodValue: formatDate(...)}`). */
  datatype Tagged = Tagged(record: HouseRecord, period: string)

  /** `rawData.map(d => ({...d, periodValue: formatDate(String(d.交易年月日), periodType)}))`. */
  function Tag(records: seq<HouseRecord>, mode: PeriodType): (ts: seq<Tagged>)
    ensures |ts| == |records|
    ensures forall i :: 0 <= i < |records| ==> ts[i] == Tagged(records[i], FormatDate(records[i].date, mode))
  {
    seq(|records|, i requires 0 <= i < |records| => Tagged(records[i], FormatDate(records[i].date, mode)))
  }

  function PricesOf(ts: seq<Tagged>): (ps: seq<real>)
    ensures |ps| == |ts|
    ensures forall i :: 0 <= i < |ts| ==> ps[i] == ts[i].record.price
  {
    seq(|ts|, i requires 0 <= i < |ts| => ts[i].record.price)
  }

  function Labels(ts: seq<Tagged>): (ls: seq<string>)
    ensures |ls| == |ts|
    ensures forall i :: 0 <= i < |ts| ==> ls[i] == ts[i].period
  {
    seq(|ts|, i requires 0 <= i < |ts| => ts[i].period)
  }

  /** `filter(d => communities.includes(d.社區名稱))`. */
  function Selected(ts: seq<Tagged>, communities: seq<string>): seq<Tagged>
  {
    Filter(ts, (t: Tagged) => t.record.community in communities)
  }

  /** The bucket of one period label. */
  function InPeriod(ts: seq<Tagged>, period: string): seq<Tagged>
  {
    Filter(ts, (t: Tagged) => t.period == period)
  }

  /** `group.filter(d => d.社區名稱 === community)`. */
  function OfCommunity(ts: seq<Tagged>, c: string): seq<Tagged>
  {
    Filter(ts, (t: Tagged) => t.record.community == c)
  }

  /** `_.meanBy(..., '價格')`, or the upper-middle element of the ascending sort. */
  function Aggregate(prices: seq<real>, agg: Aggregation): (v: real)
    requires |prices| > 0
    ensures MinOf(prices) <= v <= MaxOf(prices)
    ensures agg == MedianOf ==> v in prices
  {
    match agg
    case MeanOf =>
      MeanBounds(prices);
      Mean(prices)
    case MedianOf =>
      UpperMiddleBounds(prices);
      UpperMiddle(prices)
  }

  /** The row built from one bucket (`communities.forEach(...)` filling `periodData`). */
  function PeriodRow(group: seq<Tagged>, period: string, communities: seq<string>, agg: Aggregation): (row: Row)
    ensures row.period == period && row.trends == map[]
    ensures forall c :: c in row.values <==> c in communities && |OfCommunity(group, c)| > 0
  {
    Row(period,
        map c | c in communities && |OfCommunity(group, c)| > 0 :: Aggregate(PricesOf(OfCommunity(group, c)), agg),
        map[])
  }

  /** The rows in first-appearance order of their labels (`groupBy` then `map`). */
  function GroupedRows(ts: seq<Tagged>, communities: seq<string>, agg: Aggregation): seq<Row>
  {
    var sel := Selected(ts, communities);
    var periods := Dedup(Labels(sel));
    seq(|periods|, i requires 0 <= i < |periods| =>
      PeriodRow(InPeriod(sel, periods[i]), periods[i], communities, agg))
  }

  // ------------------------------------------------------ ordering rows

  function PeriodSet(rows: seq<Row>): set<string>
  {
    set row | row in rows :: row.period
  }

  /** Periods strictly ascending in string order (so also pairwise distinct). */
  predicate PeriodsAscending(rows: seq<Row>)
  {
    forall i, j :: 0 <= i < j < |rows| ==> LexLt(rows[i].period, rows[j].period)
  }

  predicate DistinctPeriods(rows: seq<Row>)
  {
    forall i, j :: 0 <= i < j < |rows| ==> rows[i].period != rows[j].period
  }

  /** Every period of `s` comes strictly after `p`. */
  predicate Below(p: string, s: seq<Row>)
  {
    forall k :: 0 <= k < |s| ==> LexLt(p, s[k].period)
  }

  lemma ConsAscending(x: Row, s: seq<Row>)
    requires PeriodsAscending(s) && Below(x.period, s)
    ensures PeriodsAscending([x] + s)
  {
    var r := [x] + s;
    forall i, j | 0 <= i < j < |r| ensures LexLt(r[i].period, r[j].period) {
      if i == 0 { assert r[j] == s[j - 1]; } else { assert r[i] == s[i - 1] && r[j] == s[j - 1]; }
    }
  }

  lemma BelowHead(p: string, s: seq<Row>)
    requires PeriodsAscending(s) && s != [] && LexLt(p, s[0].period)
    ensures Below(p, s)
  {
    forall k | 0 <= k < |s| ensures LexLt(p, s[k].period) {
      if k > 0 { LexLtTrans(p, s[0].period, s[k].period); }
    }
  }

  lemma BelowMembers(p: string, s: seq<Row>, t: seq<Row>, x: Row)
    requires Below(p, s) && LexLt(p, x.period)
    requires multiset(t) == multiset(s) + multiset{x}
    ensures Below(p, t)
  {
    forall k | 0 <= k < |t| ensures LexLt(p, t[k].period) {
      assert t[k] in multiset(s) + multiset{x};
    }
  }

  /** Insert `x` before the first row whose label is greater than its own. */
  function InsertRow(x: Row, s: seq<Row>): (r: seq<Row>)
    ensures multiset(r) == multiset(s) + multiset{x}
  {
    if s == [] then [x]
    else if LexLt(x.period, s[0].period) then [x] + s
    else
      assert s == [s[0]] + s[1..];
      [s[0]] + InsertRow(x, s[1..])
  }

  lemma {:induction false} InsertRowAscending(x: Row, s: seq<Row>)
    requires PeriodsAscending(s) && x.period !in PeriodSet(s)
    ensures PeriodsAscending(InsertRow(x, s))
  {
    if s == [] {
    } else if LexLt(x.period, s[0].period) {
      BelowHead(x.period, s);
      ConsAscending(x, s);
    } else {
      assert x.period != s[0].period;
      LexNotLe(x.period, s[0].period);
      assert Below(s[0].period, s[1..]);
      InsertRowAscending(x, s[1..]);
      BelowMembers(s[0].period, s[1..], InsertRow(x, s[1..]), x);
      ConsAscending(s[0], InsertRow(x, s[1..]));
    }
  }

  lemma HeadPeriodIsNew(s: seq<Row>, t: seq<Row>)
    requires s != [] && DistinctPeriods(s) && multiset(t) == multiset(s[1..])
    ensures s[0].period !in PeriodSet(t)
  {
    forall row | row in t ensures row.period != s[0].period {
      assert row in multiset(s[1..]);
    }
  }

  /** `.orderBy(['period'], ['asc'])` on rows whose labels are distinct. */
  function SortByPeriod(s: seq<Row>): (r: seq<Row>)
    requires DistinctPeriods(s)
    ensures PeriodsAscending(r)
    ensures multiset(r) == multiset(s)
  {
    if s == [] then []
    else
      var t := SortByPeriod(s[1..]);
      assert s == [s[0]] + s[1..];
      HeadPeriodIsNew(s, t);
      InsertRowAscending(s[0], t);
      InsertRow(s[0], t)
  }

  /** `processHistoryData(rawData, communities, periodType, aggregationType)`. */
  function ProcessHistoryData(records: seq<HouseRecord>, communities: seq<string>, mode: PeriodType, agg: Aggregation): (h: seq<Row>)
    ensures PeriodsAscending(h)
    ensures multiset(h) == multiset(GroupedRows(Tag(records, mode), communities, agg))
  {
    var ts := Tag(records, mode);
    GroupedRowsDistinct(ts, communities, agg);
    SortByPeriod(GroupedRows(ts, communities, agg))
  }

  lemma GroupedRowsDistinct(ts: seq<Tagged>, communities: seq<string>, agg: Aggregation)
    ensures DistinctPeriods(GroupedRows(ts, communities, agg))
  {
    var periods := Dedup(Labels(Selected(ts, communities)));
    var rows := GroupedRows(ts, communities, agg);
    forall i, j | 0 <= i < j < |rows| ensures rows[i].period != rows[j].period {
      assert rows[i].period == periods[i] && rows[j].period == periods[j];
    }
  }

  // ---------------------------------------------------------- properties

  /** The prices of community `c`'s records labelled `p`, in input order. */
  function CellPrices(ts: seq<Tagged>, c: string, p: string): seq<real>
  {
    PricesOf(Filter(ts, (t: Tagged) => t.record.community == c && t.period == p))
  }

  /** Some record of community `c` is labelled `p`. */
  predicate HasRecordIn(ts: seq<Tagged>, c: string, p: string)
  {
    exists t :: t in ts && t.record.community == c && t.period == p
  }

  lemma PeriodSetPermutation(a: seq<Row>, b: seq<Row>)
    requires multiset(a) == multiset(b)
    ensures PeriodSet(a) == PeriodSet(b)
  {
    forall row | row in a ensures row in b { assert row in multiset(a); }
    forall row | row in b ensures row in a { assert row in multiset(b); }
  }

  lemma GroupedPeriod(ts: seq<Tagged>, communities: seq<string>, agg: Aggregation, p: string)
    ensures p in PeriodSet(GroupedRows(ts, communities, agg)) <==> p in Labels(Selected(ts, communities))
  {
    hide Selected, Dedup, Labels, InPeriod;
    var rows := GroupedRows(ts, communities, agg);
    var periods := Dedup(Labels(Selected(ts, communities)));
    if p in periods {
      var i :| 0 <= i < |periods| && periods[i] == p;
      assert rows[i].period == p;
    }
    if p in PeriodSet(rows) {
      var row :| row in rows && row.period == p;
      var i :| 0 <= i < |rows| && rows[i] == row;
      assert periods[i] == p;
    }
  }

  lemma LabelsOfSelection(ts: seq<Tagged>, communities: seq<string>, p: string)
    ensures p in Labels(Selected(ts, communities))
        <==> exists t :: t in ts && t.record.community in communities && t.period == p
  {
    var sel := Selected(ts, communities);
    var ls := Labels(sel);
    if p in ls {
      var k :| 0 <= k < |sel| && ls[k] == p;
      assert sel[k] in sel;
    }
    if t :| t in ts && t.record.community in communities && t.period == p {
      assert t in sel;
      var k :| 0 <= k < |sel| && sel[k] == t;
      assert ls[k] == p;
    }
  }

  /** A period label occurs in the table iff some selected record carries it. */
  lemma HistoryPeriods(records: seq<HouseRecord>, communities: seq<string>, mode: PeriodType, agg: Aggregation)
    ensures PeriodSet(ProcessHistoryData(records, communities, mode, agg))
         == set t | t in Tag(records, mode) && t.record.community in communities :: t.period
  {
    var ts := Tag(records, mode);
    var h := ProcessHistoryData(records, communities, mode, agg);
    PeriodSetPermutation(h, GroupedRows(ts, communities, agg));
    var want := set t | t in ts && t.record.community in communities :: t.period;
    forall p ensures p in PeriodSet(h) <==> p in want {
      GroupedPeriod(ts, communities, agg, p);
      LabelsOfSelection(ts, communities, p);
    }
  }

  /** Every row of the table is the row built from its own bucket. */
  lemma RowOfGroups(ts: seq<Tagged>, communities: seq<string>, agg: Aggregation, row: Row)
    requires row in GroupedRows(ts, communities, agg)
    ensures row == PeriodRow(InPeriod(Selected(ts, communities), row.period), row.period, communities, agg)
  {
    var rows := GroupedRows(ts, communities, agg);
    var i :| 0 <= i < |rows| && rows[i] == row;
    var periods := Dedup(Labels(Selected(ts, communities)));
    assert row.period == periods[i];
  }

  lemma FilterFilter<T(!new)>(s: seq<T>, p: T -> bool, q: T -> bool, pq: T -> bool)
    requires forall x :: pq(x) == (p(x) && q(x))
    ensures Filter(Filter(s, p), q) == Filter(s, pq)
  {
    if s != [] {
      FilterFilter(s[1..], p, q, pq);
      var head := if p(s[0]) then [s[0]] else [];
      FilterAppend(head, Filter(s[1..], p), q);
    }
  }

  /** The table's bucket for community `c` in period `p` is taken straight from the input. */
  lemma CellOfSelection(ts: seq<Tagged>, communities: seq<string>, c: string, p: string)
    requires c in communities
    ensures PricesOf(OfCommunity(InPeriod(Selected(ts, communities), p), c)) == CellPrices(ts, c, p)
  {
    var sel: Tagged -> bool := (t: Tagged) => t.record.community in communities;
    var per: Tagged -> bool := (t: Tagged) => t.period == p;
    var com: Tagged -> bool := (t: Tagged) => t.record.community == c;
    var selPer: Tagged -> bool := (t: Tagged) => t.record.community in communities && t.period == p;
    var cell: Tagged -> bool := (t: Tagged) => t.record.community == c && t.period == p;
    FilterFilter(ts, sel, per, selPer);
    FilterFilter(ts, selPer, com, cell);
  }

  /** A community's bucket in a period is nonempty iff it is selected and has a record there. */
  lemma CellPresence(ts: seq<Tagged>, communities: seq<string>, c: string, p: string)
    ensures |OfCommunity(InPeriod(Selected(ts, communities), p), c)| > 0
        <==> c in communities && HasRecordIn(ts, c, p)
  {
    var sel := Selected(ts, communities);
    var group := InPeriod(sel, p);
    var cell := OfCommunity(group, c);
    if c in communities && HasRecordIn(ts, c, p) {
      var t :| t in ts && t.record.community == c && t.period == p;
      assert t in sel;
      assert t in group;
      assert t in cell;
    }
    if |cell| > 0 {
      var t := cell[0];
      assert t in cell;
      assert t in group && t.record.community == c;
      assert t in sel && t.period == p;
    }
  }

  /** A row has a field for `c` iff `c` is selected and has a record in the row's period; it has no trend fields. */
  lemma HistoryPresence(records: seq<HouseRecord>, communities: seq<string>, mode: PeriodType, agg: Aggregation, row: Row, c: string)
    requires row in ProcessHistoryData(records, communities, mode, agg)
    ensures c in row.values <==> c in communities && HasRecordIn(Tag(records, mode), c, row.period)
    ensures row.trends == map[]
  {
    var ts := Tag(records, mode);
    assert row in multiset(GroupedRows(ts, communities, agg));
    RowOfGroups(ts, communities, agg, row);
    CellPresence(ts, communities, c, row.period);
  }

  /**
   * The shape of the table: the row of period `p` has a field for community
   * `c` iff `c` is selected and has a record labelled `p`, and the field
   * holds the aggregate of exactly those records' prices, which lies between
   * their minimum and maximum.
   */
  lemma HistoryCells(records: seq<HouseRecord>, communities: seq<string>, mode: PeriodType, agg: Aggregation, row: Row, c: string)
    requires row in ProcessHistoryData(records, communities, mode, agg)
    ensures c in row.values <==> c in communities && HasRecordIn(Tag(records, mode), c, row.period)
    ensures c in row.values ==>
      var ps := CellPrices(Tag(records, mode), c, row.period);
      |ps| > 0 && row.values[c] == Aggregate(ps, agg) && MinOf(ps) <= row.values[c] <= MaxOf(ps)
    ensures row.trends == map[]
  {
    var ts := Tag(records, mode);
    assert row in multiset(GroupedRows(ts, communities, agg));
    RowOfGroups(ts, communities, agg, row);
    CellPresence(ts, communities, c, row.period);
    if c in communities {
      CellOfSelection(ts, communities, c, row.period);
    }
  }

  /**
   * The mean-only copy of the builder: every field is the arithmetic mean of
   * the community's prices in that period.
   */
  function ProcessHistoryDataMean(records: seq<HouseRecord>, communities: seq<string>, mode: PeriodType): (h: seq<Row>)
    ensures PeriodsAscending(h)
    ensures forall row, c :: row in h && c in row.values ==>
      |CellPrices(Tag(records, mode), c, row.period)| > 0 &&
      row.values[c] == Mean(CellPrices(Tag(records, mode), c, row.period))
  {
    var h := ProcessHistoryData(records, communities, mode, MeanOf);
    forall row, c | row in h && c in row.values
      ensures |CellPrices(Tag(records, mode), c, row.period)| > 0
      ensures row.values[c] == Mean(CellPrices(Tag(records, mode), c, row.period))
    {
      HistoryCells(records, communities, mode, MeanOf, row, c);
    }
    h
  }
}

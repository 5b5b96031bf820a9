/**
 * The price trend chart's derived series: the per-period average across
 * the selected communities, the flat list of every plotted price, and the
 * y-axis domain computed from it.
 */
module PriceChart {
  import opened Js
  import opened RealSeqs
  import opened Seqs
  import opened History

  /** The test `period[c] !== undefined` on a community name. */
  function HasValue(row: Row): string -> bool
  {
    c => c in row.values
  }

  /**
   * `selectedCommunities.map(c => period[c]).filter(p => p !== undefined)`:
   * one entry per selected name that has a value in the row, in selection
   * order, so a name selected twice contributes its value twice.
   */
  function ValidPrices(row: Row, selected: seq<string>): (ps: seq<real>)
    ensures var names := Filter(selected, HasValue(row));
      |ps| == |names| &&
      forall k :: 0 <= k < |names| ==> names[k] in row.values && ps[k] == row.values[names[k]]
    ensures forall x :: x in ps <==> exists c :: c in selected && c in row.values && row.values[c] == x
  {
    if selected == [] then []
    else
      var rest := ValidPrices(row, selected[1..]);
      var c := selected[0];
      assert forall d :: d in selected <==> d == c || d in selected[1..];
      (if c in row.values then [row.values[c]] else []) + rest
  }

  /** A community selected twice has its value counted twice. */
  lemma RepeatedSelectionCountsTwice(row: Row, c: string)
    requires c in row.values
    ensures ValidPrices(row, [c, c]) == [row.values[c], row.values[c]]
  {
    var names := Filter([c, c], HasValue(row));
    assert [c, c][1..] == [c] && [c][1..] == [];
    assert names == [c, c];
  }

  /** One point of the average line: the period label and, when defined, the average. */
  datatype AveragePoint = AveragePoint(period: string, average: Option<real>)

  /**
   * The average of one row: the mean of its defined selected values, which
   * lies between their minimum and maximum, or undefined when none of the
   * selected communities has a value in that period.
   */
  function AverageOf(row: Row, selected: seq<string>): (p: AveragePoint)
    ensures p.period == row.period
    ensures p.average.Some? <==> exists c :: c in selected && c in row.values
    ensures p.average.Some? ==>
      var ps := ValidPrices(row, selected);
      |ps| > 0 && MinOf(ps) <= p.average.value <= MaxOf(ps)
  {
    var ps := ValidPrices(row, selected);
    if |ps| > 0 then
      MeanBounds(ps);
      AveragePoint(row.period, Some(Mean(ps)))
    else
      assert forall c :: c in selected && c in row.values ==> row.values[c] in ps;
      AveragePoint(row.period, None)
  }

  /** `averagePrices`: one point per row of the table, in the table's order. */
  function AveragePrices(history: seq<Row>, selected: seq<string>): (r: seq<AveragePoint>)
    ensures |r| == |history|
    ensures forall i :: 0 <= i < |history| ==> r[i] == AverageOf(history[i], selected)
  {
    if history == [] then [] else [AverageOf(history[0], selected)] + AveragePrices(history[1..], selected)
  }

  /** `allPrices`: the `flatMap` of the rows' defined selected values, row by row. */
  function AllPrices(history: seq<Row>, selected: seq<string>): (r: seq<real>)
  {
    if history == [] then [] else ValidPrices(history[0], selected) + AllPrices(history[1..], selected)
  }

  /** The flat list holds exactly the defined selected values of the rows. */
  lemma {:induction false} AllPricesMembers(history: seq<Row>, selected: seq<string>, x: real)
    ensures x in AllPrices(history, selected) <==>
      exists i :: 0 <= i < |history| && x in ValidPrices(history[i], selected)
  {
    hide Filter, HasValue;
    if history != [] {
      AllPricesMembers(history[1..], selected, x);
      if x in AllPrices(history[1..], selected) {
        var i :| 0 <= i < |history[1..]| && x in ValidPrices(history[1..][i], selected);
        assert x in ValidPrices(history[i + 1], selected);
      }
      if exists i :: 0 <= i < |history| && x in ValidPrices(history[i], selected) {
        var i :| 0 <= i < |history| && x in ValidPrices(history[i], selected);
        if i > 0 {
          assert history[1..][i - 1] == history[i];
        }
      }
    }
  }

  /** Flattening distributes over concatenation of tables. */
  lemma {:induction false} AllPricesAppend(a: seq<Row>, b: seq<Row>, selected: seq<string>)
    ensures AllPrices(a + b, selected) == AllPrices(a, selected) + AllPrices(b, selected)
  {
    hide ValidPrices;
    if a == [] {
      assert a + b == b;
    } else {
      assert (a + b)[0] == a[0] && (a + b)[1..] == a[1..] + b;
      AllPricesAppend(a[1..], b, selected);
    }
  }

  /**
   * `flatMap` row by row: the flat list is the rows before `i`, then row
   * `i`'s defined selected values, then the rows after it.
   */
  lemma AllPricesAt(history: seq<Row>, selected: seq<string>, i: nat)
    requires i < |history|
    ensures AllPrices(history, selected)
         == AllPrices(history[..i], selected) + ValidPrices(history[i], selected) + AllPrices(history[i + 1..], selected)
  {
    hide ValidPrices;
    assert history == history[..i] + history[i..];
    AllPricesAppend(history[..i], history[i..], selected);
    assert history[i..][0] == history[i] && history[i..][1..] == history[i + 1..];
  }

  /** The y-axis domain: 90% of the lowest and 110% of the highest price, or `[0, 0]` with no prices. */
  function YDomain(prices: seq<real>): (real, real)
  {
    if |prices| > 0 then (MinOf(prices) * 0.9, MaxOf(prices) * 1.1) else (0.0, 0.0)
  }

  /** With positive prices the domain is never inverted and every price lies strictly inside it. */
  lemma YDomainContains(prices: seq<real>)
    requires forall i :: 0 <= i < |prices| ==> prices[i] > 0.0
    ensures YDomain(prices).0 <= YDomain(prices).1
    ensures forall i :: 0 <= i < |prices| ==> YDomain(prices).0 < prices[i] < YDomain(prices).1
  {
  }

  /** Every value is positive in every row. */
  predicate PositivePrices(history: seq<Row>)
  {
    forall i, c :: 0 <= i < |history| && c in history[i].values ==> history[i].values[c] > 0.0
  }

  /**
   * With positive prices, every defined point of the average line lies
   * strictly inside the y-axis domain computed from all plotted prices.
   */
  lemma AverageWithinDomain(history: seq<Row>, selected: seq<string>, i: nat)
    requires PositivePrices(history) && i < |history|
    ensures var p := AveragePrices(history, selected)[i];
      var dom := YDomain(AllPrices(history, selected));
      p.average.Some? ==> dom.0 < p.average.value < dom.1
  {
    var p := AveragePrices(history, selected)[i];
    if p.average.Some? {
      var ps := ValidPrices(history[i], selected);
      var all := AllPrices(history, selected);
      assert MinOf(ps) in ps && MaxOf(ps) in ps;
      AllPricesMembers(history, selected, MinOf(ps));
      AllPricesMembers(history, selected, MaxOf(ps));
      forall k | 0 <= k < |all| ensures all[k] > 0.0 {
        AllPricesMembers(history, selected, all[k]);
        var j :| 0 <= j < |history| && all[k] in ValidPrices(history[j], selected);
      }
      YDomainContains(all);
      assert MinOf(all) <= MinOf(ps);
      assert MaxOf(ps) <= MaxOf(all);
    }
  }
}

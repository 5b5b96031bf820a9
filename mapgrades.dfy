/**
 * The price grading of the community map: the six percentile grades read
 * off the ascending average prices, the colour band a price falls in, the
 * map centre, and the markers placed for the selected communities.
 * Percentiles are written in hundredths, so `Math.floor(n * 0.2)` is
 * `n * 20 / 100`.
 */
module MapGrades {
  import opened Seqs
  import opened RealSeqs
  import opened BasicStats

  /** `locations.map(l => l.avgPrice)`. */
  function AvgPrices(locations: seq<Location>): (ps: seq<real>)
    ensures |ps| == |locations|
    ensures forall i :: 0 <= i < |locations| ==> ps[i] == locations[i].avgPrice
  {
    if locations == [] then [] else [locations[0].avgPrice] + AvgPrices(locations[1..])
  }

  /** The percentiles of the six grades, in hundredths: 0, 0.2, 0.4, 0.6, 0.8 and 0.99. */
  const Percentiles: seq<nat> := [0, 20, 40, 60, 80, 99]

  /** `Math.floor(n * p)` for `p = q / 100`. */
  function PercentileIndex(n: nat, q: nat): nat
  {
    n * q / 100
  }

  /** Below the 100th percentile the index is inside a nonempty list. */
  lemma PercentileIndexInRange(n: nat, q: nat)
    requires n > 0 && q < 100
    ensures PercentileIndex(n, q) < n
  {
    var x := n * q;
    assert x <= n * 99 by { MulMonotone(n, q, 99); }
    assert x / 100 * 100 <= x;
  }

  lemma MulMonotone(n: nat, a: nat, b: nat)
    requires a <= b
    ensures n * a <= n * b
  {
    assert n * b == n * a + n * (b - a);
  }

  /** A higher percentile never gives a lower index. */
  lemma PercentileIndexMonotone(n: nat, q1: nat, q2: nat)
    requires q1 <= q2
    ensures PercentileIndex(n, q1) <= PercentileIndex(n, q2)
  {
    MulMonotone(n, q1, q2);
  }

  /** `getPercentilePrice`: the price at the percentile index of the ascending list, or 0 past its end. */
  function PercentilePrice(sorted: seq<real>, q: nat): real
  {
    var i := PercentileIndex(|sorted|, q);
    if i < |sorted| then sorted[i] else 0.0
  }

  /** `priceGrades`: the six percentile prices of the ascending average prices. */
  function PriceGrades(locations: seq<Location>): (g: seq<real>)
    ensures |g| == |Percentiles|
  {
    var sorted := SortAsc(AvgPrices(locations));
    seq(|Percentiles|, k requires 0 <= k < |Percentiles| => PercentilePrice(sorted, Percentiles[k]))
  }

  /** Each grade is the percentile entry of the ascending prices, and 0 when there are none. */
  lemma GradeEntries(locations: seq<Location>, k: nat)
    requires k < |Percentiles|
    ensures var sorted := SortAsc(AvgPrices(locations));
      (locations == [] ==> PriceGrades(locations)[k] == 0.0) &&
      (locations != [] ==>
        PercentileIndex(|sorted|, Percentiles[k]) < |sorted| &&
        PriceGrades(locations)[k] == sorted[PercentileIndex(|sorted|, Percentiles[k])])
  {
    if locations != [] {
      PercentileIndexInRange(|locations|, Percentiles[k]);
    }
  }

  /** Without locations every grade is 0. */
  lemma PriceGradesEmpty()
    ensures forall k :: 0 <= k < |Percentiles| ==> PriceGrades([])[k] == 0.0
  {
    forall k | 0 <= k < |Percentiles| ensures PriceGrades([])[k] == 0.0 {
      GradeEntries([], k);
    }
  }

  /** Every grade of a nonempty location list is the average price of one of them. */
  lemma PriceGradesAreAvgPrices(locations: seq<Location>, k: nat)
    requires locations != [] && k < |Percentiles|
    ensures PriceGrades(locations)[k] in AvgPrices(locations)
  {
    var sorted := SortAsc(AvgPrices(locations));
    GradeEntries(locations, k);
    assert PriceGrades(locations)[k] in multiset(sorted);
  }

  /** The grades never decrease, and the first one is the lowest average price. */
  lemma PriceGradesAscending(locations: seq<Location>)
    ensures SortedAsc(PriceGrades(locations))
    ensures locations != [] ==> PriceGrades(locations)[0] == MinOf(AvgPrices(locations))
  {
    var g := PriceGrades(locations);
    forall i, j | 0 <= i < j < |g| ensures g[i] <= g[j] {
      GradePairAscending(locations, i, j);
    }
    if locations != [] {
      FirstGradeIsMin(locations);
    }
  }

  lemma FirstGradeIsMin(locations: seq<Location>)
    requires locations != []
    ensures PriceGrades(locations)[0] == MinOf(AvgPrices(locations))
  {
    var ps := AvgPrices(locations);
    var sorted := SortAsc(ps);
    GradeEntries(locations, 0);
    assert PercentileIndex(|sorted|, Percentiles[0]) == 0;
    SortedHeadIsMin(ps, sorted);
  }

  lemma GradePairAscending(locations: seq<Location>, i: nat, j: nat)
    requires i < j < |Percentiles|
    ensures PriceGrades(locations)[i] <= PriceGrades(locations)[j]
  {
    hide SortAsc, AvgPrices, PriceGrades;
    var sorted := SortAsc(AvgPrices(locations));
    GradeEntries(locations, i);
    GradeEntries(locations, j);
    if locations != [] {
      var a := PercentileIndex(|sorted|, Percentiles[i]);
      var b := PercentileIndex(|sorted|, Percentiles[j]);
      PercentilesAscending(i, j);
      PercentileIndexMonotone(|sorted|, Percentiles[i], Percentiles[j]);
      assert a <= b;
      assert sorted[a] <= sorted[b];
    }
  }

  lemma PercentilesAscending(i: nat, j: nat)
    requires i < j < |Percentiles|
    ensures Percentiles[i] < Percentiles[j]
  {
  }

  /** The head of an ascending permutation is the minimum. */
  lemma SortedHeadIsMin(ps: seq<real>, sorted: seq<real>)
    requires |ps| > 0 && SortedAsc(sorted) && multiset(sorted) == multiset(ps)
    ensures sorted[0] == MinOf(ps)
  {
    var m := MinOf(ps);
    assert m in multiset(sorted);
    var j :| 0 <= j < |sorted| && sorted[j] == m;
    assert sorted[0] in multiset(ps);
  }

  // ------------------------------------------------------------ colours

  /** The colours of the five bands, lowest prices first. */
  const Colours: seq<string> := ["#00FF00", "#80FF00", "#FFFF00", "#FF8000", "#FF0000"]

  /** The `findIndex` test: the price reaches grade `i` and stays below the next one, if any. */
  predicate InGrade(grades: seq<real>, price: real, i: nat)
    requires i < |grades|
  {
    price >= grades[i] && (i == |grades| - 1 || price < grades[i + 1])
  }

  /** `findIndex` from position `from`: the first grade passing the test, or -1. */
  function GradeIndexFrom(grades: seq<real>, price: real, from: nat): (r: int)
    requires from <= |grades|
    ensures r == -1 || from <= r < |grades|
    ensures r >= 0 ==> InGrade(grades, price, r) && forall i :: from <= i < r ==> !InGrade(grades, price, i)
    ensures r == -1 ==> forall i :: from <= i < |grades| ==> !InGrade(grades, price, i)
    decreases |grades| - from
  {
    if from == |grades| then -1
    else if InGrade(grades, price, from) then from
    else GradeIndexFrom(grades, price, from + 1)
  }

  function GradeIndex(grades: seq<real>, price: real): int
  {
    GradeIndexFrom(grades, price, 0)
  }

  /** `Math.min(Math.max(0, gradeIndex), colors.length - 1)`. */
  function ColourIndex(grades: seq<real>, price: real): (k: nat)
    ensures k < |Colours|
    ensures GradeIndex(grades, price) < 0 ==> k == 0
    ensures 0 <= GradeIndex(grades, price) < |Colours| ==> k == GradeIndex(grades, price)
    ensures GradeIndex(grades, price) >= |Colours| ==> k == |Colours| - 1
  {
    var gi := GradeIndex(grades, price);
    if gi < 0 then 0 else if gi > |Colours| - 1 then |Colours| - 1 else gi
  }

  /** `getLocationColor(price).fillColor`. */
  function FillColour(grades: seq<real>, price: real): string
  {
    Colours[ColourIndex(grades, price)]
  }

  /**
   * On ascending grades, a price below the first grade has no band (-1);
   * any other price is in the band of the last grade it reaches.
   */
  lemma SortedGradeIndex(grades: seq<real>, price: real)
    requires SortedAsc(grades) && |grades| > 0
    ensures price < grades[0] ==> GradeIndex(grades, price) == -1
    ensures price >= grades[0] ==>
      var r := GradeIndex(grades, price);
      0 <= r < |grades| && grades[r] <= price &&
      forall i :: r < i < |grades| ==> price < grades[i]
  {
    if price >= grades[0] {
      var last := LastReached(grades, price, 0);
      assert InGrade(grades, price, last);
    }
  }

  /** The last grade at or below `price`, searching from a reached grade `i`. */
  lemma {:induction false} LastReached(grades: seq<real>, price: real, i: nat) returns (last: nat)
    requires SortedAsc(grades) && i < |grades| && grades[i] <= price
    ensures i <= last < |grades| && grades[last] <= price
    ensures forall j :: last < j < |grades| ==> price < grades[j]
    decreases |grades| - i
  {
    if i == |grades| - 1 || price < grades[i + 1] {
      last := i;
    } else {
      last := LastReached(grades, price, i + 1);
    }
  }

  /**
   * With the grades of a location list: a price below the lowest grade
   * gets the first colour, a price at or above the top grade is past the
   * bands (index 5) and gets the last colour, and a higher price never
   * gets a lower colour.
   */
  lemma ColourBands(locations: seq<Location>, p1: real, p2: real)
    ensures var g := PriceGrades(locations);
      (p1 < g[0] ==> ColourIndex(g, p1) == 0) &&
      (p1 >= g[5] ==> GradeIndex(g, p1) == 5 && ColourIndex(g, p1) == 4) &&
      (p1 <= p2 ==> ColourIndex(g, p1) <= ColourIndex(g, p2))
  {
    var g := PriceGrades(locations);
    PriceGradesAscending(locations);
    SortedGradeIndex(g, p1);
    SortedGradeIndex(g, p2);
    if p1 <= p2 && p1 >= g[0] {
      var r1 := GradeIndex(g, p1);
      assert g[r1] <= p2;
    }
  }

  // ------------------------------------------------------------ centre

  datatype Centre = Centre(lat: real, lng: real)

  /** Taipei city centre, the fallback when there are no locations. */
  const DefaultCentre := Centre(25.0330, 121.5654)

  function Lats(locations: seq<Location>): (xs: seq<real>)
    ensures |xs| == |locations|
    ensures forall i :: 0 <= i < |locations| ==> xs[i] == locations[i].lat
  {
    if locations == [] then [] else [locations[0].lat] + Lats(locations[1..])
  }

  function Lngs(locations: seq<Location>): (xs: seq<real>)
    ensures |xs| == |locations|
    ensures forall i :: 0 <= i < |locations| ==> xs[i] == locations[i].lng
  {
    if locations == [] then [] else [locations[0].lng] + Lngs(locations[1..])
  }

  /**
   * `center`: the mean position of the locations, which lies inside their
   * bounding box, or the fallback when there are none.
   */
  function MapCentre(locations: seq<Location>): (c: Centre)
    ensures locations == [] ==> c == DefaultCentre
    ensures locations != [] ==>
      MinOf(Lats(locations)) <= c.lat <= MaxOf(Lats(locations)) &&
      MinOf(Lngs(locations)) <= c.lng <= MaxOf(Lngs(locations))
  {
    if |locations| > 0 then
      MeanBounds(Lats(locations));
      MeanBounds(Lngs(locations));
      Centre(Mean(Lats(locations)), Mean(Lngs(locations)))
    else DefaultCentre
  }

  // ------------------------------------------------------------ markers

  /** What a circle marker shows: position, fill colour band, and the popup's name, count and price. */
  datatype Marker = Marker(name: string, lat: real, lng: real, colour: nat, count: nat, avgPrice: real)

  function MarkerOf(l: Location, grades: seq<real>): Marker
  {
    Marker(l.name, l.lat, l.lng, ColourIndex(grades, l.avgPrice), l.count, l.avgPrice)
  }

  function MarkersOf(ls: seq<Location>, grades: seq<real>): seq<Marker>
  {
    seq(|ls|, i requires 0 <= i < |ls| => MarkerOf(ls[i], grades))
  }

  lemma MarkersOfSnoc(ls: seq<Location>, l: Location, grades: seq<real>)
    ensures MarkersOf(ls + [l], grades) == MarkersOf(ls, grades) + [MarkerOf(l, grades)]
  {
  }

  /** `selectedLocations`: the locations of selected communities, in order. */
  function SelectedLocations(locations: seq<Location>, selected: seq<string>): (r: seq<Location>)
    ensures forall l :: l in r <==> l in locations && l.name in selected
    ensures Subsequence(r, locations)
  {
    FilterIsSubsequence(locations, (l: Location) => l.name in selected);
    Filter(locations, (l: Location) => l.name in selected)
  }

  lemma SelectedSnoc(ls: seq<Location>, l: Location, selected: seq<string>)
    ensures SelectedLocations(ls + [l], selected)
         == SelectedLocations(ls, selected) + if l.name in selected then [l] else []
  {
    FilterAppend(ls, [l], (x: Location) => x.name in selected);
    assert [l][1..] == [];
  }

  /**
   * The marker effect's `forEach`: a marker is pushed for each location of
   * a selected community, in order, so the markers are exactly those of
   * the locations the map view is fitted to, coloured by the grades.
   */
  method PlaceMarkers(locations: seq<Location>, selected: seq<string>) returns (markers: seq<Marker>)
    ensures markers == MarkersOf(SelectedLocations(locations, selected), PriceGrades(locations))
  {
    markers := PushMarkers(locations, selected, PriceGrades(locations));
  }

  /** The `forEach` loop itself, with the grades fixed. */
  method PushMarkers(locations: seq<Location>, selected: seq<string>, grades: seq<real>) returns (markers: seq<Marker>)
    ensures markers == MarkersOf(SelectedLocations(locations, selected), grades)
  {
    markers := [];
    ghost var chosen: seq<Location> := [];
    var i := 0;
    assert SelectedLocations(locations[..0], selected) == [] && MarkersOf([], grades) == [];
    hide SelectedLocations, MarkersOf, MarkerOf;
    while i < |locations|
      invariant i <= |locations|
      invariant chosen == SelectedLocations(locations[..i], selected)
      invariant markers == MarkersOf(chosen, grades)
    {
      var l := locations[i];
      assert locations[..i + 1] == locations[..i] + [l];
      SelectedSnoc(locations[..i], l, selected);
      if l.name in selected {
        MarkersOfSnoc(chosen, l, grades);
        markers := markers + [MarkerOf(l, grades)];
        chosen := chosen + [l];
      }
      i := i + 1;
    }
    assert locations[..i] == locations;
  }

  /** Every marker belongs to a selected community and has one of the five colours. */
  lemma MarkersSelected(locations: seq<Location>, selected: seq<string>, m: Marker)
    requires m in MarkersOf(SelectedLocations(locations, selected), PriceGrades(locations))
    ensures m.name in selected && m.colour < |Colours|
    ensures exists l :: l in locations && m == MarkerOf(l, PriceGrades(locations))
  {
    var ls := SelectedLocations(locations, selected);
    var i :| 0 <= i < |ls| && MarkersOf(ls, PriceGrades(locations))[i] == m;
    assert ls[i] in ls;
  }
}

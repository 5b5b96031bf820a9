/**
 * `calculateBasicStats` and the per-community location summary.
 *
 * Records are grouped by community name in first-appearance order (lodash
 * `groupBy`); each group yields its size and the mean, minimum and maximum
 * of its prices. The statistics are then ordered by count, largest first,
 * with ties kept in first-appearance order (lodash `orderBy` is stable).
 */
module BasicStats {
  import opened Js
  import opened Seqs
  import opened RealSeqs
  import opened Records

  datatype CommunityStat = CommunityStat(name: string, count: nat, avgPrice: real, minPrice: real, maxPrice: real)

  /** One map marker's data: the group's mean position, size and mean price. */
  datatype Location = Location(name: string, lat: real, lng: real, count: nat, avgPrice: real)

  function Names(records: seq<HouseRecord>): (ns: seq<string>)
    ensures |ns| == |records|
    ensures forall i :: 0 <= i < |records| ==> ns[i] == records[i].community
  {
    seq(|records|, i requires 0 <= i < |records| => records[i].community)
  }

  /** The group of one community, in input order. */
  function GroupOf(records: seq<HouseRecord>, name: string): seq<HouseRecord>
  {
    Filter(records, (r: HouseRecord) => r.community == name)
  }

  function PriceList(rs: seq<HouseRecord>): (ps: seq<real>)
    ensures |ps| == |rs|
    ensures forall i :: 0 <= i < |rs| ==> ps[i] == rs[i].price
  {
    seq(|rs|, i requires 0 <= i < |rs| => rs[i].price)
  }

  function LatList(rs: seq<HouseRecord>): (ps: seq<real>)
    ensures |ps| == |rs|
    ensures forall i :: 0 <= i < |rs| ==> ps[i] == rs[i].lat
  {
    seq(|rs|, i requires 0 <= i < |rs| => rs[i].lat)
  }

  function LngList(rs: seq<HouseRecord>): (ps: seq<real>)
    ensures |ps| == |rs|
    ensures forall i :: 0 <= i < |rs| ==> ps[i] == rs[i].lng
  {
    seq(|rs|, i requires 0 <= i < |rs| => rs[i].lng)
  }

  /** The size of a group is the number of records carrying its name. */
  lemma {:induction false} GroupSize(records: seq<HouseRecord>, name: string)
    ensures |GroupOf(records, name)| == Occurrences(Names(records), name)
  {
    if records != [] {
      GroupSize(records[1..], name);
      assert Names(records)[1..] == Names(records[1..]);
    }
  }

  lemma GroupNonEmpty(records: seq<HouseRecord>, name: string)
    requires name in Names(records)
    ensures |GroupOf(records, name)| > 0
  {
    var i :| 0 <= i < |records| && Names(records)[i] == name;
    assert records[i] in GroupOf(records, name);
  }

  /** The entry of one group: `{name, count, avgPrice, minPrice, maxPrice}`. */
  function StatOf(records: seq<HouseRecord>, name: string): (s: CommunityStat)
    requires name in Names(records)
    ensures s.name == name && s.count > 0
    ensures s.minPrice <= s.avgPrice <= s.maxPrice
  {
    GroupNonEmpty(records, name);
    var ps := PriceList(GroupOf(records, name));
    MeanBounds(ps);
    CommunityStat(name, |ps|, Mean(ps), MinOf(ps), MaxOf(ps))
  }

  /** The entries of the given groups, in the order of `keys`. */
  function StatsFor(records: seq<HouseRecord>, keys: seq<string>): (r: seq<CommunityStat>)
    requires forall k :: k in keys ==> k in Names(records)
    ensures |r| == |keys|
    ensures forall i :: 0 <= i < |keys| ==> r[i] == StatOf(records, keys[i])
  {
    if keys == [] then [] else [StatOf(records, keys[0])] + StatsFor(records, keys[1..])
  }

  // ----------------------------------------------- ordering by count

  predicate CountsDescending(s: seq<CommunityStat>)
  {
    forall i, j :: 0 <= i < j < |s| ==> s[i].count >= s[j].count
  }

  /** Insert `x` before the first entry whose count is not larger than its own. */
  function InsertByCount(x: CommunityStat, s: seq<CommunityStat>): (r: seq<CommunityStat>)
    ensures multiset(r) == multiset(s) + multiset{x}
  {
    if s == [] || x.count >= s[0].count then [x] + s
    else
      assert s == [s[0]] + s[1..];
      [s[0]] + InsertByCount(x, s[1..])
  }

  lemma ConsDescending(x: CommunityStat, s: seq<CommunityStat>)
    requires CountsDescending(s)
    requires forall k :: 0 <= k < |s| ==> x.count >= s[k].count
    ensures CountsDescending([x] + s)
  {
    var r := [x] + s;
    forall i, j | 0 <= i < j < |r| ensures r[i].count >= r[j].count {
      if i == 0 { assert r[j] == s[j - 1]; } else { assert r[i] == s[i - 1] && r[j] == s[j - 1]; }
    }
  }

  lemma {:induction false} InsertByCountDescending(x: CommunityStat, s: seq<CommunityStat>)
    requires CountsDescending(s)
    ensures CountsDescending(InsertByCount(x, s))
  {
    if s == [] || x.count >= s[0].count {
      ConsDescending(x, s);
    } else {
      InsertByCountDescending(x, s[1..]);
      var t := InsertByCount(x, s[1..]);
      forall k | 0 <= k < |t| ensures s[0].count >= t[k].count {
        assert t[k] in multiset(s[1..]) + multiset{x};
      }
      ConsDescending(s[0], t);
    }
  }

  /** `.orderBy(['count'], ['desc'])`: a stable insertion sort on counts. */
  function SortByCount(s: seq<CommunityStat>): (r: seq<CommunityStat>)
    ensures CountsDescending(r)
    ensures multiset(r) == multiset(s)
  {
    if s == [] then []
    else
      assert s == [s[0]] + s[1..];
      var t := SortByCount(s[1..]);
      InsertByCountDescending(s[0], t);
      InsertByCount(s[0], t)
  }

  /** `calculateBasicStats(filteredData)`. */
  function CalculateBasicStats(records: seq<HouseRecord>): (r: seq<CommunityStat>)
    ensures CountsDescending(r)
    ensures multiset(r) == multiset(StatsFor(records, Dedup(Names(records))))
  {
    SortByCount(StatsFor(records, Dedup(Names(records))))
  }

  // ---------------------------------------------------------- properties

  /** Every entry is the statistic of its own group. */
  lemma EntryIsGroupStat(records: seq<HouseRecord>, s: CommunityStat)
    requires s in CalculateBasicStats(records)
    ensures s.name in Names(records)
    ensures s == StatOf(records, s.name)
  {
    hide *;
    var keys := Dedup(Names(records));
    var unsorted := StatsFor(records, keys);
    assert s in multiset(unsorted);
    var i :| 0 <= i < |unsorted| && unsorted[i] == s;
    assert s == StatOf(records, keys[i]);
  }

  /** An entry's count is the number of records of its community. */
  lemma StatCount(records: seq<HouseRecord>, s: CommunityStat)
    requires s in CalculateBasicStats(records)
    ensures s.count == Occurrences(Names(records), s.name)
  {
    EntryIsGroupStat(records, s);
    GroupSize(records, s.name);
  }

  /**
   * Each entry has a positive count equal to the number of records of its
   * community, and its mean lies between its minimum and maximum.
   */
  lemma StatEntries(records: seq<HouseRecord>, s: CommunityStat)
    requires s in CalculateBasicStats(records)
    ensures s.count == Occurrences(Names(records), s.name) > 0
    ensures s.minPrice <= s.avgPrice <= s.maxPrice
    ensures exists r :: r in records && r.community == s.name && r.price == s.minPrice
    ensures exists r :: r in records && r.community == s.name && r.price == s.maxPrice
  {
    EntryIsGroupStat(records, s);
    GroupSize(records, s.name);
    var g := GroupOf(records, s.name);
    var ps := PriceList(g);
    var i :| 0 <= i < |ps| && ps[i] == s.minPrice;
    var j :| 0 <= j < |ps| && ps[j] == s.maxPrice;
    assert g[i] in g && g[j] in g;
  }

  /** Every price of the community lies between the entry's minimum and maximum. */
  lemma StatBounds(records: seq<HouseRecord>, s: CommunityStat, r: HouseRecord)
    requires s in CalculateBasicStats(records)
    requires r in records && r.community == s.name
    ensures s.minPrice <= r.price <= s.maxPrice
  {
    EntryIsGroupStat(records, s);
    var g := GroupOf(records, s.name);
    assert r in g;
    var k :| 0 <= k < |g| && g[k] == r;
    assert PriceList(g)[k] == r.price;
  }

  function NameList(stats: seq<CommunityStat>): (ns: seq<string>)
    ensures |ns| == |stats|
    ensures forall i :: 0 <= i < |stats| ==> ns[i] == stats[i].name
  {
    seq(|stats|, i requires 0 <= i < |stats| => stats[i].name)
  }

  /** No community has two entries. */
  lemma StatNamesDistinct(records: seq<HouseRecord>)
    ensures NoDup(NameList(CalculateBasicStats(records)))
  {
    var keys := Dedup(Names(records));
    var unsorted := StatsFor(records, keys);
    assert NameList(unsorted) == keys;
    DistinctNamesPermutation(CalculateBasicStats(records), unsorted);
  }

  /** Every community present in the input has an entry, and no other name does. */
  lemma StatNamesCover(records: seq<HouseRecord>, n: string)
    ensures n in NameList(CalculateBasicStats(records)) <==> n in Names(records)
  {
    var stats := CalculateBasicStats(records);
    var ns := NameList(stats);
    if n in Names(records) {
      var keys := Dedup(Names(records));
      var unsorted := StatsFor(records, keys);
      var a :| 0 <= a < |keys| && keys[a] == n;
      assert unsorted[a] in multiset(stats);
      var i :| 0 <= i < |stats| && stats[i] == unsorted[a];
      assert ns[i] == n;
    }
    if n in ns {
      var i :| 0 <= i < |ns| && ns[i] == n;
      EntryIsGroupStat(records, stats[i]);
    }
  }

  /** Reordering a list whose names are distinct keeps them distinct. */
  lemma DistinctNamesPermutation(stats: seq<CommunityStat>, unsorted: seq<CommunityStat>)
    requires multiset(stats) == multiset(unsorted)
    requires NoDup(NameList(unsorted))
    ensures NoDup(NameList(stats))
  {
    var ns := NameList(stats);
    forall i, j | 0 <= i < j < |ns| ensures ns[i] != ns[j] {
      assert stats[i] in multiset(unsorted) && stats[j] in multiset(unsorted);
      var a :| 0 <= a < |unsorted| && unsorted[a] == stats[i];
      var b :| 0 <= b < |unsorted| && unsorted[b] == stats[j];
      if a == b {
        OccursOnce(unsorted, a);
        TwoPositions(stats, i, j);
      } else {
        assert NameList(unsorted)[a] != NameList(unsorted)[b];
      }
    }
  }

  lemma {:induction false} TwoPositions<T>(s: seq<T>, i: nat, j: nat)
    requires 0 <= i < j < |s| && s[i] == s[j]
    ensures multiset(s)[s[i]] >= 2
  {
    assert s == [s[0]] + s[1..];
    if i > 0 {
      TwoPositions(s[1..], i - 1, j - 1);
    } else {
      assert s[1..][j - 1] in multiset(s[1..]);
    }
  }

  lemma OccursOnce(s: seq<CommunityStat>, a: nat)
    requires NoDup(NameList(s)) && 0 <= a < |s|
    ensures multiset(s)[s[a]] == 1
  {
    var x := s[a];
    assert s == s[..a] + [x] + s[a + 1..];
    forall k | 0 <= k < |s| && k != a ensures s[k] != x {
      if k < a {
        assert NameList(s)[k] != NameList(s)[a];
      } else {
        assert NameList(s)[a] != NameList(s)[k];
      }
    }
    assert x !in s[..a];
    assert x !in s[a + 1..];
  }

  // ------------------------------------------------------ count totals

  function CountSum(stats: seq<CommunityStat>): nat
  {
    if stats == [] then 0 else stats[0].count + CountSum(stats[1..])
  }

  lemma {:induction false} InsertCountSum(x: CommunityStat, s: seq<CommunityStat>)
    ensures CountSum(InsertByCount(x, s)) == x.count + CountSum(s)
  {
    if s != [] && x.count < s[0].count {
      InsertCountSum(x, s[1..]);
    }
  }

  lemma {:induction false} SortCountSum(s: seq<CommunityStat>)
    ensures CountSum(SortByCount(s)) == CountSum(s)
  {
    if s != [] {
      SortCountSum(s[1..]);
      InsertCountSum(s[0], SortByCount(s[1..]));
    }
  }

  lemma {:induction false} StatsForCountSum(records: seq<HouseRecord>, keys: seq<string>)
    requires forall k :: k in keys ==> k in Names(records)
    ensures CountSum(StatsFor(records, keys)) == KeyCounts(keys, Names(records))
  {
    if keys != [] {
      GroupSize(records, keys[0]);
      StatsForCountSum(records, keys[1..]);
      assert StatsFor(records, keys)[1..] == StatsFor(records, keys[1..]);
    }
  }

  /** The counts add up to the number of records. */
  lemma CountsSumToInput(records: seq<HouseRecord>)
    ensures CountSum(CalculateBasicStats(records)) == |records|
  {
    var keys := Dedup(Names(records));
    SortCountSum(StatsFor(records, keys));
    StatsForCountSum(records, keys);
    DedupCounts(Names(records));
  }

  // ------------------------------------------------------ lookups

  /** `stats.find(s => s.name === name)`. */
  function FindStat(stats: seq<CommunityStat>, name: string): (r: Option<CommunityStat>)
    ensures r.Some? ==> r.value in stats && r.value.name == name
    ensures r.None? <==> name !in NameList(stats)
  {
    if stats == [] then None
    else if stats[0].name == name then Some(stats[0])
    else
      var r := FindStat(stats[1..], name);
      assert NameList(stats) == [stats[0].name] + NameList(stats[1..]);
      r
  }

  /** Looking up a community present in the input finds its own group's entry. */
  lemma FindStatOfPresent(records: seq<HouseRecord>, name: string)
    requires name in Names(records)
    ensures FindStat(CalculateBasicStats(records), name) == Some(StatOf(records, name))
  {
    StatNamesCover(records, name);
    var found := FindStat(CalculateBasicStats(records), name);
    EntryIsGroupStat(records, found.value);
  }

  // ------------------------------------------------------ locations

  /** One group's marker data: `lat`, `lng` and `avgPrice` are `_.meanBy` over the group. */
  function LocationOf(records: seq<HouseRecord>, name: string): (l: Location)
    requires name in Names(records)
    ensures l.name == name && l.count == Occurrences(Names(records), name) > 0
  {
    GroupNonEmpty(records, name);
    GroupSize(records, name);
    var g := GroupOf(records, name);
    Location(name, Mean(LatList(g)), Mean(LngList(g)), |g|, Mean(PriceList(g)))
  }

  /** The `locations` chain: one entry per community in first-appearance order, unsorted. */
  function CommunityLocations(records: seq<HouseRecord>): seq<Location>
  {
    LocationsOf(records, Dedup(Names(records)))
  }

  function LocationsOf(records: seq<HouseRecord>, keys: seq<string>): (ls: seq<Location>)
    requires forall k :: k in keys ==> k in Names(records)
    ensures |ls| == |keys|
    ensures forall i :: 0 <= i < |ls| ==> ls[i] == LocationOf(records, keys[i])
  {
    if keys == [] then [] else [LocationOf(records, keys[0])] + LocationsOf(records, keys[1..])
  }

  /**
   * A location agrees with the community's basic statistic on count and
   * mean price, and its position lies within the group's bounding box.
   */
  lemma LocationMatchesStat(records: seq<HouseRecord>, l: Location)
    requires l in CommunityLocations(records)
    ensures l.name in Names(records)
    ensures FindStat(CalculateBasicStats(records), l.name) == Some(CommunityStat(
      l.name, l.count, l.avgPrice,
      StatOf(records, l.name).minPrice, StatOf(records, l.name).maxPrice))
    ensures var g := GroupOf(records, l.name);
      |g| > 0 &&
      MinOf(LatList(g)) <= l.lat <= MaxOf(LatList(g)) &&
      MinOf(LngList(g)) <= l.lng <= MaxOf(LngList(g))
  {
    var ls := CommunityLocations(records);
    var i :| 0 <= i < |ls| && ls[i] == l;
    FindStatOfPresent(records, l.name);
    GroupNonEmpty(records, l.name);
    var g := GroupOf(records, l.name);
    MeanBounds(LatList(g));
    MeanBounds(LngList(g));
  }
}

/**
 * Arithmetic over sequences of prices (exact reals): sums, `_.meanBy`,
 * `_.minBy` / `Math.min`, `_.maxBy` / `Math.max`, and the ascending sort
 * that `_.orderBy(..., ['asc'])` performs before the median pick.
 */
module RealSeqs {

  function Sum(s: seq<real>): real
  {
    if s == [] then 0.0 else s[0] + Sum(s[1..])
  }

  function Mean(s: seq<real>): real
    requires |s| > 0
  {
    Sum(s) / (|s| as real)
  }

  function MinOf(s: seq<real>): (m: real)
    requires |s| > 0
    ensures m in s
    ensures forall i :: 0 <= i < |s| ==> m <= s[i]
  {
    if |s| == 1 then s[0]
    else
      var rest := MinOf(s[1..]);
      if s[0] <= rest then s[0] else rest
  }

  function MaxOf(s: seq<real>): (m: real)
    requires |s| > 0
    ensures m in s
    ensures forall i :: 0 <= i < |s| ==> s[i] <= m
  {
    if |s| == 1 then s[0]
    else
      var rest := MaxOf(s[1..]);
      if s[0] >= rest then s[0] else rest
  }

  lemma {:induction false} SumAppend(a: seq<real>, b: seq<real>)
    ensures Sum(a + b) == Sum(a) + Sum(b)
  {
    if a == [] {
      assert a + b == b;
    } else {
      assert (a + b)[1..] == a[1..] + b;
      SumAppend(a[1..], b);
    }
  }

  /** Every element between `lo` and `hi` bounds the sum by `n*lo` and `n*hi`. */
  lemma {:induction false} SumBounds(s: seq<real>, lo: real, hi: real)
    requires forall i :: 0 <= i < |s| ==> lo <= s[i] <= hi
    ensures (|s| as real) * lo <= Sum(s) <= (|s| as real) * hi
  {
    if s != [] {
      SumBounds(s[1..], lo, hi);
    }
  }

  /** The mean of a nonempty price list lies between its minimum and maximum. */
  lemma MeanBounds(s: seq<real>)
    requires |s| > 0
    ensures MinOf(s) <= Mean(s) <= MaxOf(s)
  {
    MeanBetween(s, MinOf(s), MaxOf(s));
  }

  /** A mean is bounded by any common bounds of its elements. */
  lemma MeanBetween(s: seq<real>, lo: real, hi: real)
    requires |s| > 0
    requires forall i :: 0 <= i < |s| ==> lo <= s[i] <= hi
    ensures lo <= Mean(s) <= hi
  {
    SumBounds(s, lo, hi);
    BelowQuotient(lo, Sum(s), |s| as real);
    AboveQuotient(hi, Sum(s), |s| as real);
  }

  lemma BelowQuotient(lo: real, total: real, n: real)
    requires n > 0.0 && n * lo <= total
    ensures lo <= total / n
  {
    assert total / n * n == total;
  }

  lemma AboveQuotient(hi: real, total: real, n: real)
    requires n > 0.0 && total <= n * hi
    ensures total / n <= hi
  {
    assert total / n * n == total;
  }

  predicate SortedAsc(s: seq<real>)
  {
    forall i, j :: 0 <= i < j < |s| ==> s[i] <= s[j]
  }

  /** Insert `x` into an ascending list after every element not greater than it. */
  function InsertAsc(x: real, s: seq<real>): (r: seq<real>)
    requires SortedAsc(s)
    ensures SortedAsc(r)
    ensures multiset(r) == multiset(s) + multiset{x}
    ensures |r| == |s| + 1
  {
    if s == [] then [x]
    else if x < s[0] then [x] + s
    else
      var t := InsertAsc(x, s[1..]);
      InsertAscStep(x, s, t);
      [s[0]] + t
  }

  /** Putting the head of `s` back in front of the insertion into its tail keeps the order and the elements. */
  lemma InsertAscStep(x: real, s: seq<real>, t: seq<real>)
    requires SortedAsc(s) && s != [] && s[0] <= x
    requires SortedAsc(t) && multiset(t) == multiset(s[1..]) + multiset{x}
    ensures SortedAsc([s[0]] + t)
    ensures multiset([s[0]] + t) == multiset(s) + multiset{x}
  {
    assert s == [s[0]] + s[1..];
    forall k | 0 <= k < |t| ensures s[0] <= t[k] {
      assert t[k] in multiset(s[1..]) + multiset{x};
    }
    SortedCons(s[0], t);
  }

  lemma SortedCons(a: real, t: seq<real>)
    requires SortedAsc(t)
    requires forall k :: 0 <= k < |t| ==> a <= t[k]
    ensures SortedAsc([a] + t)
  {
    var r := [a] + t;
    forall i, j | 0 <= i < j < |r| ensures r[i] <= r[j] {
      if i > 0 { assert r[i] == t[i - 1] && r[j] == t[j - 1]; }
      else { assert r[j] == t[j - 1]; }
    }
  }

  /** Ascending sort: sorted and a permutation of its input. */
  function SortAsc(s: seq<real>): (r: seq<real>)
    ensures SortedAsc(r)
    ensures multiset(r) == multiset(s)
    ensures |r| == |s|
  {
    if s == [] then []
    else
      assert s == [s[0]] + s[1..];
      InsertAsc(s[0], SortAsc(s[1..]))
  }

  /**
   * The element at index `floor(n/2)` of the ascending sort: the median for
   * odd `n`, the upper of the two middle elements for even `n`.
   */
  function UpperMiddle(s: seq<real>): real
    requires |s| > 0
  {
    SortAsc(s)[|s| / 2]
  }

  /** The upper-middle pick is one of the prices and lies between min and max. */
  lemma UpperMiddleBounds(s: seq<real>)
    requires |s| > 0
    ensures UpperMiddle(s) in s
    ensures MinOf(s) <= UpperMiddle(s) <= MaxOf(s)
  {
    var r := SortAsc(s);
    assert r[|s| / 2] in multiset(r);
    assert r[|s| / 2] in multiset(s);
  }

  /** Every sorted price up to the pick is at most it, and every one from the pick on is at least it. */
  lemma UpperMiddleSplits(s: seq<real>)
    requires |s| > 0
    ensures forall i :: 0 <= i <= |s| / 2 ==> SortAsc(s)[i] <= UpperMiddle(s)
    ensures forall i :: |s| / 2 <= i < |s| ==> UpperMiddle(s) <= SortAsc(s)[i]
  {
    hide SortAsc;
    var r := SortAsc(s);
    forall i | 0 <= i <= |s| / 2 ensures r[i] <= r[|s| / 2] {
      if i < |s| / 2 { assert SortedAsc(r); }
    }
    forall i | |s| / 2 <= i < |s| ensures r[|s| / 2] <= r[i] {
      if i > |s| / 2 { assert SortedAsc(r); }
    }
  }
}

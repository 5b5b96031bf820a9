/**
 * Sequence helpers shared by the pipeline: `Array.prototype.filter`, the
 * first-appearance order of distinct keys that lodash `groupBy` and `new Set`
 * produce, and the subsequence relation.
 */
module Seqs {

  /** `s.filter(p)`: the elements satisfying `p`, in their original order. */
  function Filter<T(!new)>(s: seq<T>, p: T -> bool): (r: seq<T>)
    ensures |r| <= |s|
    ensures forall x :: x in r <==> x in s && p(x)
  {
    if s == [] then [] else (if p(s[0]) then [s[0]] else []) + Filter(s[1..], p)
  }

  lemma {:induction false} FilterAppend<T(!new)>(a: seq<T>, b: seq<T>, p: T -> bool)
    ensures Filter(a + b, p) == Filter(a, p) + Filter(b, p)
  {
    if a != [] {
      assert (a + b)[1..] == a[1..] + b;
      FilterAppend(a[1..], b, p);
    } else {
      assert a + b == b;
    }
  }

  lemma FilterSnoc<T(!new)>(s: seq<T>, p: T -> bool)
    requires |s| > 0
    ensures Filter(s, p) == Filter(s[..|s| - 1], p) + if p(s[|s| - 1]) then [s[|s| - 1]] else []
  {
    var n := |s| - 1;
    assert s == s[..n] + [s[n]];
    FilterAppend(s[..n], [s[n]], p);
    assert [s[n]][1..] == [];
    assert Filter([s[n]], p) == if p(s[n]) then [s[n]] else [];
  }

  lemma {:induction false} FilterKeepsAll<T(!new)>(s: seq<T>, p: T -> bool)
    requires forall x :: x in s ==> p(x)
    ensures Filter(s, p) == s
  {
    if s != [] {
      FilterKeepsAll(s[1..], p);
      assert s == [s[0]] + s[1..];
    }
  }

  /** `a` is obtained from `b` by deleting some elements. */
  predicate Subsequence<T(==)>(a: seq<T>, b: seq<T>)
  {
    if a == [] then true
    else if b == [] then false
    else (a[0] == b[0] && Subsequence(a[1..], b[1..])) || Subsequence(a, b[1..])
  }

  lemma {:induction false} SubsequenceRefl<T>(s: seq<T>)
    ensures Subsequence(s, s)
  {
    if s != [] {
      SubsequenceRefl(s[1..]);
    }
  }

  lemma {:induction false} FilterIsSubsequence<T(!new)>(s: seq<T>, p: T -> bool)
    ensures Subsequence(Filter(s, p), s)
  {
    if s != [] {
      FilterIsSubsequence(s[1..], p);
      var r := Filter(s, p);
      if p(s[0]) {
        assert r[0] == s[0] && r[1..] == Filter(s[1..], p);
      } else {
        assert r == Filter(s[1..], p);
      }
    }
  }

  predicate NoDup<T(==)>(s: seq<T>)
  {
    forall i, j :: 0 <= i < j < |s| ==> s[i] != s[j]
  }

  /** The distinct elements of `s` in order of first appearance. */
  function Dedup<T(==,!new)>(s: seq<T>): (d: seq<T>)
    ensures NoDup(d)
    ensures forall x :: x in d <==> x in s
    ensures |d| <= |s|
  {
    if s == [] then []
    else
      var d := Dedup(s[..|s| - 1]);
      var x := s[|s| - 1];
      assert s == s[..|s| - 1] + [x];
      if x in d then d else d + [x]
  }

  /** How many times `x` occurs in `s`. */
  function Occurrences<T(==)>(s: seq<T>, x: T): nat
  {
    if s == [] then 0 else (if s[0] == x then 1 else 0) + Occurrences(s[1..], x)
  }

  lemma {:induction false} OccurrencesNoDup<T>(s: seq<T>, x: T)
    requires NoDup(s)
    ensures Occurrences(s, x) == if x in s then 1 else 0
  {
    if s != [] {
      OccurrencesNoDup(s[1..], x);
      assert s[0] == x ==> x !in s[1..];
    }
  }

  lemma {:induction false} OccurrencesSnoc<T>(s: seq<T>, x: T, k: T)
    ensures Occurrences(s + [x], k) == Occurrences(s, k) + (if x == k then 1 else 0)
  {
    if s == [] {
      assert [x][1..] == [];
    } else {
      assert (s + [x])[1..] == s[1..] + [x];
      OccurrencesSnoc(s[1..], x, k);
    }
  }

  lemma {:induction false} OccurrencesAbsent<T>(s: seq<T>, x: T)
    requires x !in s
    ensures Occurrences(s, x) == 0
  {
    if s != [] {
      OccurrencesAbsent(s[1..], x);
    }
  }

  /** The total number of occurrences in `s` of each key of `keys`. */
  function KeyCounts<T(==)>(keys: seq<T>, s: seq<T>): nat
  {
    if keys == [] then 0 else Occurrences(s, keys[0]) + KeyCounts(keys[1..], s)
  }

  lemma {:induction false} KeyCountsSnocInput<T>(keys: seq<T>, s: seq<T>, x: T)
    ensures KeyCounts(keys, s + [x]) == KeyCounts(keys, s) + Occurrences(keys, x)
  {
    if keys != [] {
      OccurrencesSnoc(s, x, keys[0]);
      KeyCountsSnocInput(keys[1..], s, x);
    }
  }

  lemma {:induction false} KeyCountsSnocKey<T>(keys: seq<T>, k: T, s: seq<T>)
    ensures KeyCounts(keys + [k], s) == KeyCounts(keys, s) + Occurrences(s, k)
  {
    if keys == [] {
      assert [k][1..] == [];
    } else {
      assert (keys + [k])[1..] == keys[1..] + [k];
      KeyCountsSnocKey(keys[1..], k, s);
    }
  }

  /** Counting every distinct key of `s` counts every element of `s` exactly once. */
  lemma {:induction false} DedupCounts<T(!new)>(s: seq<T>)
    ensures KeyCounts(Dedup(s), s) == |s|
  {
    if s != [] {
      var init := s[..|s| - 1];
      var x := s[|s| - 1];
      var d := Dedup(init);
      assert s == init + [x];
      DedupCounts(init);
      KeyCountsSnocInput(d, init, x);
      if x in d {
        OccurrencesNoDup(d, x);
      } else {
        OccurrencesAbsent(d, x);
        OccurrencesAbsent(init, x);
        KeyCountsSnocKey(d, x, s);
        OccurrencesSnoc(init, x, x);
      }
    }
  }
}

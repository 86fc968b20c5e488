/**
 * The numeric `Array.prototype.sort((a, b) => a - b)` that the source calls
 * on its pitch arrays, modelled as a functional insertion sort proved to
 * return the ascending permutation of its input.
 */
module Sorting {

  predicate Ascending(s: seq<int>) {
    forall i, j :: 0 <= i < j < |s| ==> s[i] <= s[j]
  }

  predicate StrictlyAscending(s: seq<int>) {
    forall i, j :: 0 <= i < j < |s| ==> s[i] < s[j]
  }

  /** Each element below the next one. */
  predicate Rising(s: seq<int>)
    decreases |s|
  {
    |s| < 2 || (s[0] < s[1] && Rising(s[1..]))
  }

  /** A rising sequence is strictly ascending and lies between its first and last elements. */
  lemma {:induction false} RisingIsStrict(s: seq<int>)
    requires Rising(s) && |s| > 0
    ensures StrictlyAscending(s)
    ensures forall k :: 0 <= k < |s| ==> s[0] <= s[k] <= s[|s| - 1]
    decreases |s|
  {
    if |s| >= 2 {
      RisingIsStrict(s[1..]);
      assert forall k :: 1 <= k < |s| ==> s[k] == s[1..][k - 1];
    }
  }

  /** Inserts `x` into an ascending sequence at its place. */
  function Insert(x: int, s: seq<int>): (r: seq<int>)
    requires Ascending(s)
    ensures |r| == |s| + 1
    ensures Ascending(r)
    ensures multiset(r) == multiset(s) + multiset{x}
  {
    if s == [] || x <= s[0] then
      PrependAscending(x, s);
      [x] + s
    else
      var tail := Insert(x, s[1..]);
      assert s == [s[0]] + s[1..];
      forall k | 0 <= k < |tail| ensures s[0] <= tail[k] {
        assert tail[k] in multiset(s[1..]) + multiset{x};
      }
      PrependAscending(s[0], tail);
      assert multiset([s[0]] + tail) == multiset{s[0]} + multiset(tail);
      assert multiset(s) == multiset{s[0]} + multiset(s[1..]);
      [s[0]] + tail
  }

  /** A value at most every element of an ascending sequence can go in front of it. */
  lemma PrependAscending(h: int, t: seq<int>)
    requires Ascending(t) && forall k :: 0 <= k < |t| ==> h <= t[k]
    ensures Ascending([h] + t)
  {
    var r := [h] + t;
    forall i, j | 0 <= i < j < |r| ensures r[i] <= r[j] {
      assert r[j] == t[j - 1];
      if i > 0 {
        assert r[i] == t[i - 1];
      }
    }
  }

  /** The ascending permutation of `s`. */
  function SortAscending(s: seq<int>): (r: seq<int>)
    ensures |r| == |s|
    ensures Ascending(r)
    ensures multiset(r) == multiset(s)
  {
    if s == [] then []
    else
      assert s == [s[0]] + s[1..];
      Insert(s[0], SortAscending(s[1..]))
  }

  /** The head of an ascending sequence is below each of its elements. */
  lemma HeadIsLeast(s: seq<int>, x: int)
    requires Ascending(s) && x in multiset(s)
    ensures s[0] <= x
  {
    assert x in s;
  }

  lemma TailMultiset(s: seq<int>)
    requires s != []
    ensures s[0] in multiset(s)
    ensures multiset(s[1..]) == multiset(s) - multiset{s[0]}
    ensures Ascending(s) ==> Ascending(s[1..])
  {
    assert s == [s[0]] + s[1..];
  }

  /** Two ascending sequences with the same elements are equal. */
  lemma {:induction false} AscendingUnique(a: seq<int>, b: seq<int>)
    requires Ascending(a) && Ascending(b)
    requires multiset(a) == multiset(b)
    ensures a == b
    decreases |a|
  {
    if a == [] {
      assert |b| == |multiset(b)| == 0;
    } else {
      TailMultiset(a);
      assert b != [] by { assert |b| == |multiset(b)| == |multiset(a)| > 0; }
      TailMultiset(b);
      HeadIsLeast(b, a[0]);
      HeadIsLeast(a, b[0]);
      AscendingUnique(a[1..], b[1..]);
      HeadAndTail(a, b);
    }
  }

  lemma HeadAndTail(a: seq<int>, b: seq<int>)
    requires a != [] && b != [] && a[0] == b[0] && a[1..] == b[1..]
    ensures a == b
  {
    assert a == [a[0]] + a[1..];
    assert b == [b[0]] + b[1..];
  }

  /** Sorting an already ascending sequence changes nothing. */
  lemma SortOfAscending(s: seq<int>)
    requires Ascending(s)
    ensures SortAscending(s) == s
  {
    AscendingUnique(SortAscending(s), s);
  }

  /** A sequence whose elements are pairwise different. */
  predicate Distinct(s: seq<int>) {
    forall i, j :: 0 <= i < j < |s| ==> s[i] != s[j]
  }

  lemma {:induction false} DistinctCounts(s: seq<int>)
    requires Distinct(s)
    ensures forall x :: multiset(s)[x] <= 1
  {
    if s != [] {
      assert s == [s[0]] + s[1..];
      forall k | 0 <= k < |s[1..]| ensures s[1..][k] != s[0] {
        assert s[1..][k] == s[k + 1];
      }
      assert Distinct(s[1..]) by {
        forall i, j | 0 <= i < j < |s[1..]| ensures s[1..][i] != s[1..][j] {
          assert s[1..][i] == s[i + 1] && s[1..][j] == s[j + 1];
        }
      }
      DistinctCounts(s[1..]);
      assert multiset(s) == multiset{s[0]} + multiset(s[1..]);
    }
  }

  lemma RepeatedCount(s: seq<int>, i: int, j: int)
    requires 0 <= i < j < |s| && s[i] == s[j]
    ensures multiset(s)[s[i]] >= 2
  {
    var x := s[i];
    assert s == s[..i] + [x] + s[i + 1..j] + [x] + s[j + 1..];
    assert multiset(s) == multiset(s[..i]) + multiset{x} + multiset(s[i + 1..j]) + multiset{x} + multiset(s[j + 1..]);
  }

  /** A permutation of a duplicate-free sequence is duplicate-free. */
  lemma DistinctPermutation(a: seq<int>, b: seq<int>)
    requires Distinct(a)
    requires multiset(a) == multiset(b)
    ensures Distinct(b)
  {
    DistinctCounts(a);
    forall i, j | 0 <= i < j < |b| ensures b[i] != b[j] {
      if b[i] == b[j] {
        RepeatedCount(b, i, j);
      }
    }
  }

  /**
   * Sorting a strictly ascending sequence extended by a value it does not
   * hold gives a strictly ascending sequence: the shape of every "push then
   * sort" step on a chord's intervals.
   */
  lemma {:induction false} SortPushStrict(s: seq<int>, x: int)
    requires StrictlyAscending(s)
    requires x !in s
    ensures StrictlyAscending(SortAscending(s + [x]))
    ensures multiset(SortAscending(s + [x])) == multiset(s) + multiset{x}
  {
    var t := s + [x];
    assert Distinct(t) by {
      forall i, j | 0 <= i < j < |t| ensures t[i] != t[j] {
        if j == |s| {
          assert t[i] == s[i] && s[i] in s;
        } else {
          assert t[i] == s[i] && t[j] == s[j];
        }
      }
    }
    DistinctPermutation(t, SortAscending(t));
  }
}

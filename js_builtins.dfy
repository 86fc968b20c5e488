/**
 * The JavaScript built-ins the source relies on for its string tags and
 * note-name arrays: `String.prototype.includes`, `String.prototype.replace`
 * with a string pattern (first occurrence only), `Array.prototype.indexOf`
 * and the truncating remainder operator `%`.
 */
module JsBuiltins {
  import opened Wrappers

  /** `p` is a prefix of `s`, compared character by character. */
  predicate IsPrefix(p: string, s: string)
    decreases |p|
  {
    |p| == 0 || (|s| > 0 && p[0] == s[0] && IsPrefix(p[1..], s[1..]))
  }

  lemma {:induction false} IsPrefixMeansSlice(p: string, s: string)
    ensures IsPrefix(p, s) <==> |p| <= |s| && s[..|p|] == p
  {
    if |p| > 0 && |s| > 0 {
      IsPrefixMeansSlice(p[1..], s[1..]);
      assert p == [p[0]] + p[1..];
      if |p| <= |s| {
        assert s[..|p|] == [s[0]] + s[1..][..|p| - 1];
      }
    }
  }

  /** `s.includes(p)`. */
  predicate Includes(s: string, p: string)
    decreases |s|
  {
    IsPrefix(p, s) || (|s| > 0 && Includes(s[1..], p))
  }

  /** A string lacking one of the characters of `p` does not include `p`. */
  lemma {:induction false} MissingCharExcludes(s: string, p: string, c: char)
    requires c in p && c !in s
    ensures !Includes(s, p)
    decreases |s|
  {
    IsPrefixMeansSlice(p, s);
    if |s| > 0 {
      assert forall k :: 0 <= k < |s[1..]| ==> s[1..][k] == s[k + 1];
      MissingCharExcludes(s[1..], p, c);
    }
  }

  /** `p` occurs in `s` starting at position `i`. */
  predicate OccursAt(s: string, p: string, i: int) {
    0 <= i && i + |p| <= |s| && s[i..i + |p|] == p
  }

  /** `p` occurs in `s` at position `i` and at no earlier position. */
  predicate FirstOccurrenceAt(s: string, p: string, i: int) {
    OccursAt(s, p, i) && forall j :: 0 <= j < i ==> !OccursAt(s, p, j)
  }

  /** `s.indexOf(p)`: the first position where `p` occurs, or -1. */
  function IndexOfSubstring(s: string, p: string): (i: int)
    ensures -1 <= i <= |s|
    ensures i >= 0 ==> FirstOccurrenceAt(s, p, i)
    ensures i < 0 ==> forall j :: !OccursAt(s, p, j)
    ensures i >= 0 <==> Includes(s, p)
    decreases |s|
  {
    IsPrefixMeansSlice(p, s);
    if IsPrefix(p, s) then 0
    else if |s| == 0 then -1
    else
      var j := IndexOfSubstring(s[1..], p);
      ShiftedOccurrences(s, p, if j < 0 then |s| else j);
      if j < 0 then -1
      else
        assert s[1..][j..j + |p|] == s[j + 1..j + 1 + |p|];
        j + 1
  }

  /** An occurrence at `k > 0` in `s` is one at `k - 1` in `s[1..]`. */
  lemma OccursShift(s: string, p: string, k: int)
    requires |s| > 0 && k > 0
    ensures OccursAt(s, p, k) <==> OccursAt(s[1..], p, k - 1)
  {
    if k + |p| <= |s| {
      assert s[1..][k - 1..k - 1 + |p|] == s[k..k + |p|];
    }
  }

  /**
   * When `p` is not a prefix of `s` and occurs in `s[1..]` at no position
   * before `n`, it occurs in `s` at no position up to `n`.
   */
  lemma ShiftedOccurrences(s: string, p: string, n: int)
    requires |s| > 0 && !IsPrefix(p, s)
    requires forall k :: 0 <= k < n ==> !OccursAt(s[1..], p, k)
    ensures forall k :: 0 <= k <= n ==> !OccursAt(s, p, k)
  {
    IsPrefixMeansSlice(p, s);
    forall k | 0 <= k <= n ensures !OccursAt(s, p, k) {
      if k == 0 {
        assert |p| <= |s| ==> s[k..k + |p|] == s[..|p|];
      } else {
        OccursShift(s, p, k);
      }
    }
  }

  /** `indexOf` answers the first occurrence, whichever way it was found. */
  lemma FirstOccurrenceIsIndex(s: string, p: string, i: int)
    requires FirstOccurrenceAt(s, p, i)
    ensures IndexOfSubstring(s, p) == i && Includes(s, p)
  {
  }

  /** A string with no occurrence of `p` at any position does not include `p`. */
  lemma NoOccurrenceExcludes(s: string, p: string)
    requires forall j :: 0 <= j <= |s| - |p| ==> !OccursAt(s, p, j)
    ensures !Includes(s, p)
  {
    var j := IndexOfSubstring(s, p);
  }

  /** `s.replace(p, r)` with a string pattern: only the first occurrence is replaced. */
  function ReplaceFirst(s: string, p: string, r: string): (t: string)
    ensures !Includes(s, p) ==> t == s
    ensures Includes(s, p) ==> |t| == |s| - |p| + |r|
    ensures Includes(s, p) ==> exists i :: FirstOccurrenceAt(s, p, i) && t == s[..i] + r + s[i + |p|..]
  {
    var i := IndexOfSubstring(s, p);
    if i < 0 then s else s[..i] + r + s[i + |p|..]
  }

  /** `a.indexOf(x)`: the first index holding `x`, or -1. */
  function IndexOf<T(==)>(a: seq<T>, x: T): (i: int)
    ensures -1 <= i < |a|
    ensures i >= 0 <==> x in a
    ensures i >= 0 ==> a[i] == x && forall j :: 0 <= j < i ==> a[j] != x
  {
    if |a| == 0 then -1
    else if a[0] == x then 0
    else
      var j := IndexOf(a[1..], x);
      if j < 0 then -1 else j + 1
  }

  /** `obj[key]` on an object literal given as its (key, value) entries: the value of the first entry with that key, or `undefined`. */
  function KeyLookup<T>(entries: seq<(string, T)>, key: string): (r: Option<T>)
    ensures r.Some? <==> exists k :: 0 <= k < |entries| && entries[k].0 == key
    ensures r.Some? ==>
      exists k :: 0 <= k < |entries| && entries[k] == (key, r.value) && (forall j :: 0 <= j < k ==> entries[j].0 != key)
  {
    if entries == [] then None
    else if entries[0].0 == key then Some(entries[0].1)
    else
      var r := KeyLookup(entries[1..], key);
      assert forall k :: 1 <= k < |entries| ==> entries[1..][k - 1] == entries[k];
      r
  }

  /** JavaScript's `a % 12` for integers: the remainder takes the sign of `a`. */
  function TruncRem12(a: int): (r: int)
    ensures a >= 0 ==> r == a % 12
    ensures a < 0 ==> -12 < r <= 0 && (r == 0 || r == a % 12 - 12)
    ensures (a - r) % 12 == 0
  {
    if a >= 0 then a % 12 else -((-a) % 12)
  }
}

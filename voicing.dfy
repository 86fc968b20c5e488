/**
 * `applyInversion`: re-voicing a chord's MIDI pitches by moving its lowest
 * notes up an octave (first, second, third inversion) or its second-highest
 * note down an octave (drop-2). The method follows the source's array steps;
 * the function `Inversion` states the result, and the lemmas say what an
 * inversion keeps (the number of notes, the pitch classes) and what it moves.
 */
module Voicing {
  import opened Sorting

  /** Every pitch moved by `d` semitones. */
  function Shifted(s: seq<int>, d: int): (r: seq<int>)
    ensures |r| == |s|
    ensures forall k :: 0 <= k < |s| ==> r[k] - s[k] == d
  {
    if s == [] then [] else [s[0] + d] + Shifted(s[1..], d)
  }

  /** The lowest `k` notes of an ascending voicing moved up an octave, the result re-sorted. */
  function RaiseLowest(s: seq<int>, k: nat): (r: seq<int>)
    requires k <= |s|
    ensures |r| == |s|
    ensures Ascending(r)
    ensures multiset(r) == multiset(s[k..]) + multiset(Shifted(s[..k], 12))
  {
    SortAscending(s[k..] + Shifted(s[..k], 12))
  }

  /** The second-highest note moved down an octave to the front, the others in their order. */
  function Dropped(s: seq<int>): (t: seq<int>)
    requires |s| >= 2
    ensures |t| == |s|
  {
    [s[|s| - 2] - 12] + s[..|s| - 2] + s[|s| - 1..]
  }

  /** The second-highest note of a voicing moved down an octave, the result re-sorted. */
  function DropSecondHighest(s: seq<int>): (r: seq<int>)
    requires |s| >= 2
    ensures |r| == |s|
    ensures Ascending(r)
    ensures multiset(r) == multiset(Dropped(s))
  {
    SortAscending(Dropped(s))
  }

  /** The cases of the `switch` in `applyInversion`; every other tag, "root" included, changes nothing. */
  datatype InversionTag = First | Second | Third | Drop2 | NoInversion

  function TagOf(inversion: string): InversionTag {
    match inversion
    case "first" => First
    case "second" => Second
    case "third" => Third
    case "drop2" => Drop2
    case _ => NoInversion
  }

  /** The four tag names reach their four cases. */
  lemma TagOfNames()
    ensures TagOf("first") == First && TagOf("second") == Second
    ensures TagOf("third") == Third && TagOf("drop2") == Drop2
    ensures TagOf("root") == NoInversion && TagOf("") == NoInversion
  {
    assert "first"[0] != "third"[0] && "first"[0] != "drop2"[0] && "third"[0] != "drop2"[0];
    assert "root"[0] != "drop2"[0];
  }

  /**
   * The voicing `applyInversion` returns for the case `tag`: the pitches
   * sorted, then the requested notes moved by an octave and the result
   * sorted again. A tag it does not know, or a chord too small for the tag,
   * leaves the sorted pitches.
   */
  function Inversion(midi: seq<int>, tag: InversionTag): (r: seq<int>)
    ensures |r| == |midi|
    ensures Ascending(r)
  {
    Revoice(SortAscending(midi), tag)
  }

  /** The switch of `applyInversion` on already sorted pitches `s`. */
  function Revoice(s: seq<int>, tag: InversionTag): (r: seq<int>)
    ensures |r| == |s|
    ensures Ascending(s) ==> Ascending(r)
  {
    match tag
    case First => if |s| > 1 then RaiseLowest(s, 1) else s
    case Second => if |s| > 2 then RaiseLowest(s, 2) else s
    case Third => if |s| > 3 then RaiseLowest(s, 3) else s
    case Drop2 => if |s| >= 4 then DropSecondHighest(s) else s
    case NoInversion => s
  }

  /**
   * The first, second and third inversion steps: take the `k` lowest
   * notes off the front (`shift` / `splice(0, k)`), push each back an octave
   * higher, re-sort.
   */
  method RaiseLowestSteps(notes: seq<int>, k: nat) returns (r: seq<int>)
    requires k <= |notes|
    ensures r == RaiseLowest(notes, k)
  {
    var lowest := notes[..k];
    r := notes[k..];
    r := r + Shifted(lowest, 12);
    r := SortAscending(r);
  }

  /** The drop-2 steps: cut the second-highest note out, put it an octave lower in front, re-sort. */
  method DropSecondHighestSteps(notes: seq<int>) returns (r: seq<int>)
    requires |notes| >= 2
    ensures r == DropSecondHighest(notes)
  {
    var secondNote := notes[|notes| - 2];
    r := notes[..|notes| - 2] + notes[|notes| - 1..];
    r := [secondNote - 12] + r;
    assert r == Dropped(notes);
    r := SortAscending(r);
  }

  /**
   * `applyInversion(midiNotes, inversion)` on a sorted copy of the pitches;
   * the `switch` on the tag string is a `match` on its case.
   */
  method ApplyInversion(midiNotes: seq<int>, inversion: string) returns (r: seq<int>)
    ensures r == Inversion(midiNotes, TagOf(inversion))
  {
    if |midiNotes| == 0 {
      assert SortAscending(midiNotes) == [];
      return [];
    }
    var notes := SortAscending(midiNotes);
    match TagOf(inversion) {
      case First =>
        if |notes| > 1 {
          notes := RaiseLowestSteps(notes, 1);
        }
      case Second =>
        if |notes| > 2 {
          notes := RaiseLowestSteps(notes, 2);
        }
      case Third =>
        if |notes| > 3 {
          notes := RaiseLowestSteps(notes, 3);
        }
      case Drop2 =>
        if |notes| >= 4 {
          notes := DropSecondHighestSteps(notes);
        }
      case NoInversion =>
    }
    r := notes;
  }

  /** How many notes of `s` have pitch class `c` (MIDI number modulo 12). */
  function PitchClassCount(s: seq<int>, c: int): nat
  {
    if s == [] then 0 else (if s[0] % 12 == c then 1 else 0) + PitchClassCount(s[1..], c)
  }

  /** Two voicings sound the same pitch classes, each as often. */
  ghost predicate SamePitchClasses(a: seq<int>, b: seq<int>) {
    forall c :: PitchClassCount(a, c) == PitchClassCount(b, c)
  }

  lemma {:induction false} PitchClassCountConcat(a: seq<int>, b: seq<int>, c: int)
    ensures PitchClassCount(a + b, c) == PitchClassCount(a, c) + PitchClassCount(b, c)
    decreases |a|
  {
    if a == [] {
      assert a + b == b;
    } else {
      assert (a + b)[1..] == a[1..] + b;
      assert (a + b)[0] == a[0];
      PitchClassCountConcat(a[1..], b, c);
    }
  }

  lemma PitchClassCountSplit(s: seq<int>, k: nat, c: int)
    requires k <= |s|
    ensures PitchClassCount(s, c) == PitchClassCount(s[..k], c) + PitchClassCount(s[k..], c)
  {
    assert s == s[..k] + s[k..];
    PitchClassCountConcat(s[..k], s[k..], c);
  }

  /** Pitch classes depend only on the pitches, not on their order. */
  lemma {:induction false} PermutationSamePitchClasses(a: seq<int>, b: seq<int>, c: int)
    requires multiset(a) == multiset(b)
    ensures PitchClassCount(a, c) == PitchClassCount(b, c)
    decreases |a|
  {
    if a == [] {
      assert |b| == |multiset(b)| == 0;
    } else {
      var x := a[0];
      assert x in multiset(b) by { assert x in multiset(a); }
      var i :| 0 <= i < |b| && b[i] == x;
      var rest := b[..i] + b[i + 1..];
      MultisetWithout(b, i);
      MultisetWithout(a, 0);
      assert a[..0] + a[1..] == a[1..];
      MultisetCancel(multiset(a[1..]), multiset(rest), x);
      PermutationSamePitchClasses(a[1..], rest, c);
      PitchClassCountWithout(b, i, c);
    }
  }

  /** Taking out the element at `i` takes one copy of it out of the multiset. */
  lemma MultisetWithout(s: seq<int>, i: int)
    requires 0 <= i < |s|
    ensures multiset(s) == multiset(s[..i] + s[i + 1..]) + multiset{s[i]}
  {
    assert s == s[..i] + [s[i]] + s[i + 1..];
  }

  lemma MultisetCancel(m1: multiset<int>, m2: multiset<int>, x: int)
    requires m1 + multiset{x} == m2 + multiset{x}
    ensures m1 == m2
  {
    forall y ensures m1[y] == m2[y] {
      assert (m1 + multiset{x})[y] == (m2 + multiset{x})[y];
    }
  }

  /** Taking out the note at `i` lowers the count of its pitch class by one. */
  lemma PitchClassCountWithout(s: seq<int>, i: int, c: int)
    requires 0 <= i < |s|
    ensures PitchClassCount(s, c) == PitchClassCount(s[..i] + s[i + 1..], c) + (if s[i] % 12 == c then 1 else 0)
  {
    assert s == s[..i] + ([s[i]] + s[i + 1..]);
    PitchClassCountConcat(s[..i], [s[i]] + s[i + 1..], c);
    PitchClassCountConcat([s[i]], s[i + 1..], c);
    PitchClassCountConcat(s[..i], s[i + 1..], c);
    PitchClassCountSingle(s[i], c);
  }

  /** Moving pitches by whole octaves keeps their pitch classes. */
  lemma {:induction false} OctaveShiftSamePitchClasses(s: seq<int>, octaves: int, c: int)
    ensures PitchClassCount(Shifted(s, 12 * octaves), c) == PitchClassCount(s, c)
    decreases |s|
  {
    if s != [] {
      var t := Shifted(s, 12 * octaves);
      assert t[1..] == Shifted(s[1..], 12 * octaves);
      assert t[0] == s[0] + 12 * octaves;
      assert (s[0] + 12 * octaves) % 12 == s[0] % 12;
      OctaveShiftSamePitchClasses(s[1..], octaves, c);
    }
  }

  lemma PitchClassCountSingle(v: int, c: int)
    ensures PitchClassCount([v], c) == (if v % 12 == c then 1 else 0)
  {
    assert [v][1..] == [];
  }

  /** Drop-2 keeps the pitch classes: the moved note falls by exactly an octave. */
  lemma DropSecondHighestKeepsPitchClasses(s: seq<int>, c: int)
    requires |s| >= 2
    ensures PitchClassCount(DropSecondHighest(s), c) == PitchClassCount(s, c)
  {
    PermutationSamePitchClasses(DropSecondHighest(s), Dropped(s), c);
    DroppedKeepsPitchClasses(s, c);
  }

  lemma DroppedKeepsPitchClasses(s: seq<int>, c: int)
    requires |s| >= 2
    ensures PitchClassCount(Dropped(s), c) == PitchClassCount(s, c)
  {
    var n := |s|;
    var v := s[n - 2];
    var rest := s[..n - 2] + s[n - 1..];
    assert Dropped(s) == [v - 12] + rest;
    PitchClassCountConcat([v - 12], rest, c);
    PitchClassCountSingle(v - 12, c);
    assert (v - 12) % 12 == v % 12;
    PitchClassCountWithout(s, n - 2, c);
    assert s[..n - 2] + s[n - 1..] == rest;
  }

  /** Raising the lowest `k` notes by an octave and re-sorting keeps the pitch classes. */
  lemma RaiseLowestKeepsPitchClasses(s: seq<int>, k: nat, c: int)
    requires k <= |s|
    ensures PitchClassCount(RaiseLowest(s, k), c) == PitchClassCount(s, c)
  {
    var t := s[k..] + Shifted(s[..k], 12);
    PermutationSamePitchClasses(RaiseLowest(s, k), t, c);
    PitchClassCountConcat(s[k..], Shifted(s[..k], 12), c);
    OctaveShiftSamePitchClasses(s[..k], 1, c);
    PitchClassCountSplit(s, k, c);
  }

  lemma RevoiceKeepsPitchClasses(s: seq<int>, tag: InversionTag, c: int)
    ensures PitchClassCount(Revoice(s, tag), c) == PitchClassCount(s, c)
  {
    match tag
    case First => if |s| > 1 { RaiseLowestKeepsPitchClasses(s, 1, c); }
    case Second => if |s| > 2 { RaiseLowestKeepsPitchClasses(s, 2, c); }
    case Third => if |s| > 3 { RaiseLowestKeepsPitchClasses(s, 3, c); }
    case Drop2 => if |s| >= 4 { DropSecondHighestKeepsPitchClasses(s, c); }
    case NoInversion =>
  }

  /** Every inversion sounds the same pitch classes as the chord it was given, each as often. */
  lemma InversionKeepsPitchClasses(midi: seq<int>, tag: InversionTag)
    ensures SamePitchClasses(Inversion(midi, tag), midi)
  {
    forall c ensures PitchClassCount(Inversion(midi, tag), c) == PitchClassCount(midi, c) {
      PermutationSamePitchClasses(SortAscending(midi), midi, c);
      RevoiceKeepsPitchClasses(SortAscending(midi), tag, c);
    }
  }

  /** Rearranging pitches keeps every one of them at or above a floor. */
  lemma PermutationKeepsFloor(a: seq<int>, b: seq<int>, lo: int)
    requires multiset(a) == multiset(b)
    requires forall k :: 0 <= k < |a| ==> a[k] >= lo
    ensures forall k :: 0 <= k < |b| ==> b[k] >= lo
  {
    forall k | 0 <= k < |b| ensures b[k] >= lo {
      assert b[k] in multiset(a);
      var j :| 0 <= j < |a| && a[j] == b[k];
    }
  }

  lemma RaiseLowestStaysAbove(s: seq<int>, k: nat, lo: int)
    requires k <= |s|
    requires forall i :: 0 <= i < |s| ==> s[i] >= lo
    ensures forall i :: 0 <= i < |s| ==> RaiseLowest(s, k)[i] >= lo
  {
    var t := s[k..] + Shifted(s[..k], 12);
    forall i | 0 <= i < |t| ensures t[i] >= lo {
      if i >= |s| - k {
        assert t[i] == s[i - (|s| - k)] + 12;
      }
    }
    PermutationKeepsFloor(t, RaiseLowest(s, k), lo);
  }

  lemma DropSecondHighestStaysAbove(s: seq<int>, lo: int)
    requires |s| >= 2
    requires forall i :: 0 <= i < |s| ==> s[i] >= lo
    ensures forall i :: 0 <= i < |s| ==> DropSecondHighest(s)[i] >= lo - 12
  {
    var n := |s|;
    var t := Dropped(s);
    forall i | 0 <= i < |t| ensures t[i] >= lo - 12 {
      if 0 < i < n - 1 {
        assert t[i] == s[i - 1];
      } else if i == n - 1 {
        assert t[i] == s[n - 1];
      }
    }
    PermutationKeepsFloor(t, DropSecondHighest(s), lo - 12);
  }

  lemma RevoiceStaysAbove(s: seq<int>, tag: InversionTag, lo: int)
    requires forall k :: 0 <= k < |s| ==> s[k] >= lo
    ensures forall k :: 0 <= k < |s| ==> Revoice(s, tag)[k] >= lo - 12
  {
    match tag
    case First => if |s| > 1 { RaiseLowestStaysAbove(s, 1, lo); }
    case Second => if |s| > 2 { RaiseLowestStaysAbove(s, 2, lo); }
    case Third => if |s| > 3 { RaiseLowestStaysAbove(s, 3, lo); }
    case Drop2 => if |s| >= 4 { DropSecondHighestStaysAbove(s, lo); }
    case NoInversion =>
  }

  /** No inversion puts a note more than an octave below the lowest pitch it was given. */
  lemma InversionStaysAbove(midi: seq<int>, tag: InversionTag, lo: int)
    requires forall k :: 0 <= k < |midi| ==> midi[k] >= lo
    ensures forall k :: 0 <= k < |midi| ==> Inversion(midi, tag)[k] >= lo - 12
  {
    var s := SortAscending(midi);
    PermutationKeepsFloor(midi, s, lo);
    RevoiceStaysAbove(s, tag, lo);
  }

  /** How many of the lowest notes a tag raises by an octave. */
  function RaisedCount(tag: InversionTag): nat {
    match tag
    case First => 1
    case Second => 2
    case Third => 3
    case _ => 0
  }

  /** Raising the lowest `k` notes trades them for the notes an octave above them. */
  lemma RaiseLowestTrade(s: seq<int>, k: nat)
    requires k <= |s|
    ensures multiset(RaiseLowest(s, k)) + multiset(s[..k]) == multiset(s) + multiset(Shifted(s[..k], 12))
  {
    assert s == s[..k] + s[k..];
  }

  /**
   * What the first, second and third inversions move: the lowest one, two
   * or three pitches are traded for the pitches an octave above them, and
   * nothing else changes.
   */
  lemma InversionRaisesLowest(midi: seq<int>, tag: InversionTag)
    requires tag == First || tag == Second || tag == Third
    requires |midi| > RaisedCount(tag)
    ensures var s, k := SortAscending(midi), RaisedCount(tag);
      multiset(Inversion(midi, tag)) + multiset(s[..k]) == multiset(midi) + multiset(Shifted(s[..k], 12))
  {
    var s, k := SortAscending(midi), RaisedCount(tag);
    assert Inversion(midi, tag) == RaiseLowest(s, k);
    RaiseLowestTrade(s, k);
  }

  /**
   * What drop-2 moves, on the sorted pitches `Inversion` hands to `Revoice`:
   * the second-highest pitch is traded for the pitch an octave below it.
   */
  lemma DropTwoLowersSecondHighest(s: seq<int>)
    requires |s| >= 4
    ensures multiset(Revoice(s, Drop2)) + multiset{s[|s| - 2]} == multiset(s) + multiset{s[|s| - 2] - 12}
  {
    var n := |s|;
    MultisetWithout(s, n - 2);
    assert Dropped(s) == [s[n - 2] - 12] + (s[..n - 2] + s[n - 1..]);
  }

  /**
   * On a chord voiced within one octave, raising the lowest notes needs no
   * re-sorting: the raised notes land above all the others, in order.
   */
  lemma RaiseLowestOfCloseVoicing(s: seq<int>, k: nat)
    requires Ascending(s) && 0 < k <= |s| && s[|s| - 1] <= s[0] + 12
    ensures RaiseLowest(s, k) == s[k..] + Shifted(s[..k], 12)
  {
    var t := s[k..] + Shifted(s[..k], 12);
    var m := |s| - k;
    forall i, j | 0 <= i < j < |t| ensures t[i] <= t[j] {
      if j < m {
        assert t[i] == s[k + i] && t[j] == s[k + j];
      } else if i < m {
        assert t[i] == s[k + i] && t[j] == s[j - m] + 12;
        assert s[k + i] <= s[|s| - 1] && s[0] <= s[j - m];
      } else {
        assert t[i] == s[i - m] + 12 && t[j] == s[j - m] + 12;
      }
    }
    SortOfAscending(t);
  }

  /** Any tag but the four (so "root", "" and unknown names) only sorts; so does a chord too small for its tag. */
  lemma NoMoveOnlySorts(midi: seq<int>, tag: InversionTag)
    ensures tag == NoInversion ==> Inversion(midi, tag) == SortAscending(midi)
    ensures (tag == First && |midi| <= 1) || (tag == Second && |midi| <= 2)
         || (tag == Third && |midi| <= 3) || (tag == Drop2 && |midi| < 4)
         ==> Inversion(midi, tag) == SortAscending(midi)
  {
  }

  /**
   * A chord voiced within one octave (C-E-G, C-E-G-B) in first, second or
   * third inversion is its pitches rotated: the lowest ones go to the top,
   * an octave up, in order (C-E-G becomes E-G-C).
   */
  lemma CloseVoicingInversion(midi: seq<int>, tag: InversionTag)
    requires tag == First || tag == Second || tag == Third
    requires Ascending(midi) && |midi| > RaisedCount(tag)
    requires midi[|midi| - 1] <= midi[0] + 12
    ensures var k := RaisedCount(tag);
      Inversion(midi, tag) == midi[k..] + Shifted(midi[..k], 12)
  {
    SortOfAscending(midi);
    RaiseLowestOfCloseVoicing(midi, RaisedCount(tag));
  }
}

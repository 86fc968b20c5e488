/**
 * `applyVoiceLeading`: every chord after the first is revoiced as the one of
 * twelve candidate voicings whose sorted pitches move least, voice by voice,
 * from the previous revoiced chord. The candidates are the chord as given,
 * its first, second and third inversions, and each of those four an octave
 * up and an octave down; the first candidate reaching the least movement
 * wins.
 */
module VoiceLeading {
  import opened Sorting
  import opened MusicTypes
  import opened TheoryTables
  import opened Voicing
  import opened ChordBuilder

  // ---------------------------------------------------------------------
  // Candidates
  // ---------------------------------------------------------------------

  /** The tag passed to `applyInversion` for base voicing `i` (1, 2 or 3). */
  function BaseTag(i: int): InversionTag {
    if i == 1 then First else if i == 2 then Second else Third
  }

  /** The four voicings pushed first: the pitches as given, then `applyInversion` with "first", "second", "third". */
  function BaseVoicings(midi: seq<int>): (b: seq<seq<int>>)
    ensures |b| == 4 && b[0] == midi
    ensures forall i :: 1 <= i < 4 ==> b[i] == Inversion(midi, BaseTag(i))
  {
    seq(4, i requires 0 <= i < 4 => if i == 0 then midi else Inversion(midi, BaseTag(i)))
  }

  /** The octave copies pushed for each voicing of `b`, in order: up an octave, then down an octave. */
  function OctaveCopies(b: seq<seq<int>>): (r: seq<seq<int>>)
    ensures |r| == 2 * |b|
    ensures forall j :: 0 <= j < |b| ==> r[2 * j] == Shifted(b[j], 12) && r[2 * j + 1] == Shifted(b[j], -12)
  {
    if b == [] then []
    else
      var r := OctaveCopies(b[..|b| - 1]) + [Shifted(b[|b| - 1], 12), Shifted(b[|b| - 1], -12)];
      assert forall j :: 0 <= j < |b| - 1 ==> b[..|b| - 1][j] == b[j];
      r
  }

  /** `candidateMidiNotes` once filled: the four base voicings, then their eight octave copies. */
  function Candidates(midi: seq<int>): (c: seq<seq<int>>)
    ensures |c| == 12
    ensures c[0] == midi
  {
    BaseVoicings(midi) + OctaveCopies(BaseVoicings(midi))
  }

  /** Every pitch of `s` is at `lo` or above. */
  predicate AllAtLeast(s: seq<int>, lo: int) {
    forall k :: 0 <= k < |s| ==> s[k] >= lo
  }

  /** Every voicing of `b` has `n` pitches, all at `lo` or above. */
  predicate VoicingsAbove(b: seq<seq<int>>, n: nat, lo: int) {
    forall i :: 0 <= i < |b| ==> |b[i]| == n && AllAtLeast(b[i], lo)
  }

  /** Octave copies of voicings at `lo` or above reach at most an octave lower. */
  lemma {:induction false} OctaveCopiesStayAbove(b: seq<seq<int>>, n: nat, lo: int)
    requires VoicingsAbove(b, n, lo)
    ensures VoicingsAbove(OctaveCopies(b), n, lo - 12)
  {
    if b != [] {
      var init := b[..|b| - 1];
      assert forall i :: 0 <= i < |init| ==> init[i] == b[i];
      OctaveCopiesStayAbove(init, n, lo);
      assert OctaveCopies(b) == OctaveCopies(init) + [Shifted(b[|b| - 1], 12), Shifted(b[|b| - 1], -12)];
    }
  }

  /** Octave copies of voicings holding the pitch classes of `m` hold them too. */
  lemma {:induction false} OctaveCopiesKeepPitchClasses(b: seq<seq<int>>, m: seq<int>)
    requires forall i :: 0 <= i < |b| ==> SamePitchClasses(b[i], m)
    ensures forall j :: 0 <= j < |OctaveCopies(b)| ==> SamePitchClasses(OctaveCopies(b)[j], m)
  {
    if b != [] {
      var init := b[..|b| - 1];
      assert forall i :: 0 <= i < |init| ==> init[i] == b[i];
      OctaveCopiesKeepPitchClasses(init, m);
      var last := b[|b| - 1];
      forall c ensures PitchClassCount(Shifted(last, 12), c) == PitchClassCount(m, c)
        && PitchClassCount(Shifted(last, -12), c) == PitchClassCount(m, c) {
        OctaveShiftSamePitchClasses(last, 1, c);
        OctaveShiftSamePitchClasses(last, -1, c);
      }
      assert OctaveCopies(b) == OctaveCopies(init) + [Shifted(last, 12), Shifted(last, -12)];
    }
  }

  /** Every candidate holds the chord's pitch classes, each as often as the chord does. */
  lemma CandidatesKeepPitchClasses(midi: seq<int>, j: int)
    requires 0 <= j < 12
    ensures SamePitchClasses(SortAscending(Candidates(midi)[j]), midi)
  {
    var b := BaseVoicings(midi);
    forall i | 0 <= i < 4 ensures SamePitchClasses(b[i], midi) {
      if i > 0 {
        InversionKeepsPitchClasses(midi, BaseTag(i));
      }
    }
    OctaveCopiesKeepPitchClasses(b, midi);
    var c := Candidates(midi);
    assert SamePitchClasses(c[j], midi) by {
      if j >= 4 {
        assert c[j] == OctaveCopies(b)[j - 4];
      }
    }
    forall p ensures PitchClassCount(SortAscending(c[j]), p) == PitchClassCount(midi, p) {
      PermutationSamePitchClasses(SortAscending(c[j]), c[j], p);
    }
  }

  /** The base voicings of pitches at 12 or above have as many pitches, all at 12 or above. */
  lemma BaseVoicingsAbove(midi: seq<int>)
    requires AllAtLeast(midi, 12)
    ensures VoicingsAbove(BaseVoicings(midi), |midi|, 12)
  {
    var b := BaseVoicings(midi);
    forall i | 1 <= i < 4 ensures AllAtLeast(b[i], 12) {
      RaisingInversionStaysAbove(midi, BaseTag(i), 12);
    }
  }

  /** Voicings followed by their octave copies reach at most an octave lower. */
  lemma WithOctaveCopiesAbove(b: seq<seq<int>>, n: nat, lo: int)
    requires VoicingsAbove(b, n, lo)
    ensures VoicingsAbove(b + OctaveCopies(b), n, lo - 12)
  {
    OctaveCopiesStayAbove(b, n, lo);
    var c := b + OctaveCopies(b);
    forall j | |b| <= j < |c| ensures c[j] == OctaveCopies(b)[j - |b|] {}
  }

  /** Every candidate, once sorted, has no pitch below 0. */
  predicate SortedAbove(cands: seq<seq<int>>) {
    forall j :: 0 <= j < |cands| ==> AllAtLeast(SortAscending(cands[j]), 0)
  }

  /** With every pitch at 12 or above, every candidate has as many pitches, and none of them, sorted, goes below 0: every pitch has a note name. */
  lemma CandidatesAbove(midi: seq<int>)
    requires AllAtLeast(midi, 12)
    ensures VoicingsAbove(Candidates(midi), |midi|, 0)
    ensures SortedAbove(Candidates(midi))
  {
    BaseVoicingsAbove(midi);
    WithOctaveCopiesAbove(BaseVoicings(midi), |midi|, 12);
    var c := Candidates(midi);
    forall j | 0 <= j < |c| ensures AllAtLeast(SortAscending(c[j]), 0) {
      PermutationKeepsFloor(c[j], SortAscending(c[j]), 0);
    }
  }

  /** The first, second and third inversions only raise notes, so they stay above the lowest pitch they were given. */
  lemma RaisingInversionStaysAbove(midi: seq<int>, tag: InversionTag, lo: int)
    requires tag == First || tag == Second || tag == Third
    requires AllAtLeast(midi, lo)
    ensures AllAtLeast(Inversion(midi, tag), lo)
  {
    var s := SortAscending(midi);
    PermutationKeepsFloor(midi, s, lo);
    if |s| > RaisedCount(tag) {
      RaiseLowestStaysAbove(s, RaisedCount(tag), lo);
    }
  }

  // ---------------------------------------------------------------------
  // Movement
  // ---------------------------------------------------------------------

  function Abs(x: int): nat {
    if x < 0 then -x else x
  }

  /** The summed distance of the first `n` voices. */
  function MovementUpTo(prev: seq<int>, cand: seq<int>, n: nat): nat
    requires n <= |prev| && n <= |cand|
  {
    if n == 0 then 0 else MovementUpTo(prev, cand, n - 1) + Abs(prev[n - 1] - cand[n - 1])
  }

  /** `currentMovement`: voice `k` of `prev` against voice `k` of `cand`, over the voices both have. */
  function Movement(prev: seq<int>, cand: seq<int>): nat {
    MovementUpTo(prev, cand, if |prev| < |cand| then |prev| else |cand|)
  }

  /** A voicing moves not at all from itself, and a positive amount from any other voicing of the same size. */
  lemma {:induction false} MovementZeroIffSame(prev: seq<int>, cand: seq<int>, n: nat)
    requires n <= |prev| && n <= |cand|
    ensures MovementUpTo(prev, cand, n) == 0 <==> prev[..n] == cand[..n]
  {
    if n > 0 {
      MovementZeroIffSame(prev, cand, n - 1);
      assert prev[..n] == prev[..n - 1] + [prev[n - 1]];
      assert cand[..n] == cand[..n - 1] + [cand[n - 1]];
      if prev[..n] == cand[..n] {
        assert prev[..n - 1] == prev[..n][..n - 1];
      }
    }
  }

  /** The cost of each candidate after sorting, in candidate order. */
  function Costs(prev: seq<int>, cands: seq<seq<int>>): (costs: seq<nat>)
    ensures |costs| == |cands|
    ensures forall j :: 0 <= j < |cands| ==> costs[j] == Movement(prev, SortAscending(cands[j]))
  {
    seq(|cands|, j requires 0 <= j < |cands| => Movement(prev, SortAscending(cands[j])))
  }

  /** The index a left-to-right scan with a strict `<` keeps: the first position of the least cost. */
  function FirstMinIndex(costs: seq<nat>): (j: nat)
    requires |costs| > 0
    ensures j < |costs|
    ensures forall k :: 0 <= k < |costs| ==> costs[j] <= costs[k]
    ensures forall k :: 0 <= k < j ==> costs[k] > costs[j]
  {
    if |costs| == 1 then 0
    else
      var init := costs[..|costs| - 1];
      var j := FirstMinIndex(init);
      assert forall k :: 0 <= k < |init| ==> init[k] == costs[k];
      if costs[|costs| - 1] < costs[j] then |costs| - 1 else j
  }

  /** One more step of the scan: the new cost wins only when it is strictly below the least so far. */
  lemma FirstMinIndexStep(costs: seq<nat>, j: nat)
    requires 0 < j < |costs|
    ensures FirstMinIndex(costs[..j + 1])
      == if costs[j] < costs[FirstMinIndex(costs[..j])] then j else FirstMinIndex(costs[..j])
  {
    assert costs[..j + 1][..j] == costs[..j];
  }

  // ---------------------------------------------------------------------
  // The revoiced progression
  // ---------------------------------------------------------------------

  /** Chords after the first have every pitch at 12 or above, so that every candidate pitch has a note name. */
  predicate LaterChordsNamed(chords: seq<Chord>) {
    forall i :: 1 <= i < |chords| ==> AllAtLeast(chords[i].midi, 12)
  }

  /** The position of the first cheapest sorted candidate. */
  function BestIndex(prev: seq<int>, midi: seq<int>): (j: nat)
    ensures j < 12
    ensures forall k :: 0 <= k < 12 ==>
      Movement(prev, SortAscending(Candidates(midi)[j])) <= Movement(prev, SortAscending(Candidates(midi)[k]))
    ensures forall k :: 0 <= k < j ==>
      Movement(prev, SortAscending(Candidates(midi)[k])) > Movement(prev, SortAscending(Candidates(midi)[j]))
  {
    var cands := Candidates(midi);
    FirstMinIndex(Costs(prev, cands))
  }

  /** `bestChord` for one chord: the current chord's fields with notes and pitches of the first cheapest sorted candidate. */
  function LeadStep(prev: seq<int>, cur: Chord): (r: Chord)
    requires AllAtLeast(cur.midi, 12)
    ensures r.root == cur.root && r.quality == cur.quality && r.symbol == cur.symbol
    ensures |r.midi| == |cur.midi| && AllAtLeast(r.midi, 0) && r.notes == NotesOf(r.midi)
  {
    var j := BestIndex(prev, cur.midi);
    CandidatesAbove(cur.midi);
    Revoiced(cur, SortAscending(Candidates(cur.midi)[j]))
  }

  /**
   * The chosen voicing is a sorted candidate, moves no more than any
   * candidate does, and every candidate before it moves strictly more.
   */
  lemma LeadStepIsFirstCheapest(prev: seq<int>, cur: Chord)
    requires AllAtLeast(cur.midi, 12)
    ensures var r := LeadStep(prev, cur);
      var j := BestIndex(prev, cur.midi);
      var cands := Candidates(cur.midi);
      r.midi == SortAscending(cands[j])
      && (forall k :: 0 <= k < 12 ==> Movement(prev, r.midi) <= Movement(prev, SortAscending(cands[k])))
      && (forall k :: 0 <= k < j ==> Movement(prev, SortAscending(cands[k])) > Movement(prev, r.midi))
  {
    var costs := Costs(prev, Candidates(cur.midi));
    var j := FirstMinIndex(costs);
    assert costs[j] == Movement(prev, SortAscending(Candidates(cur.midi)[j]));
  }

  /** The chord with its notes and pitches replaced by `midi`, each note named by its pitch. */
  function Revoiced(cur: Chord, midi: seq<int>): (r: Chord)
    requires forall k :: 0 <= k < |midi| ==> midi[k] >= 0
    ensures r.root == cur.root && r.quality == cur.quality && r.symbol == cur.symbol
    ensures r.midi == midi && r.notes == NotesOf(midi)
  {
    cur.(notes := NotesOf(midi), midi := midi)
  }

  /** `step` can lead any chord whose pitches all have note names. */
  ghost predicate NamesSuffice(step: (seq<int>, Chord) --> Chord) {
    forall prev: seq<int>, cur: Chord :: AllAtLeast(cur.midi, 12) ==> step.requires(prev, cur)
  }

  /** Every chord of `r` after the first is `step` from the chord of `r` before it to the chord of `chords` at its place. */
  ghost predicate LedBy(step: (seq<int>, Chord) --> Chord, chords: seq<Chord>, r: seq<Chord>)
    requires NamesSuffice(step) && LaterChordsNamed(chords) && |r| <= |chords|
  {
    forall i :: 1 <= i < |r| ==> r[i] == step(r[i - 1].midi, chords[i])
  }

  /** `r` is `applyVoiceLeading(chords)`: as long as `chords`, starting with its first chord, each later chord led from its predecessor in `r`. */
  ghost predicate IsVoiceLed(chords: seq<Chord>, r: seq<Chord>)
    requires LaterChordsNamed(chords)
  {
    |r| == |chords| && (|r| > 0 ==> r[0] == chords[0]) && LedBy(LeadStep, chords, r)
  }

  /** A led prefix grows by one chord stepped from its last chord. */
  lemma LedByExtend(step: (seq<int>, Chord) --> Chord, chords: seq<Chord>, r: seq<Chord>, c: Chord)
    requires NamesSuffice(step) && LaterChordsNamed(chords) && 1 <= |r| < |chords| && LedBy(step, chords, r)
    requires c == step(r[|r| - 1].midi, chords[|r|])
    ensures LedBy(step, chords, r + [c])
  {
    var r' := r + [c];
    forall i | 1 <= i < |r'|
      ensures r'[i] == step(r'[i - 1].midi, chords[i])
    {
      assert r'[i - 1] == r[i - 1];
      if i < |r| {
        assert r'[i] == r[i];
      }
    }
  }

  /** Two progressions led by the same step from the same chords and the same first chord agree up to position `i`. */
  lemma {:induction false} LedByAgreeAt(step: (seq<int>, Chord) --> Chord, chords: seq<Chord>, r1: seq<Chord>, r2: seq<Chord>, i: nat)
    requires NamesSuffice(step) && LaterChordsNamed(chords) && i < |r1| == |r2| <= |chords|
    requires r1[0] == r2[0] && LedBy(step, chords, r1) && LedBy(step, chords, r2)
    ensures r1[i] == r2[i]
  {
    if i > 0 {
      LedByAgreeAt(step, chords, r1, r2, i - 1);
      assert r1[i] == step(r1[i - 1].midi, chords[i]);
      assert r2[i] == step(r2[i - 1].midi, chords[i]);
    }
  }

  /** The revoiced progression is determined by the chords: no two different ones exist. */
  lemma VoiceLedUnique(chords: seq<Chord>, r1: seq<Chord>, r2: seq<Chord>)
    requires LaterChordsNamed(chords) && IsVoiceLed(chords, r1) && IsVoiceLed(chords, r2)
    ensures r1 == r2
  {
    forall i | 0 <= i < |chords|
      ensures r1[i] == r2[i]
    {
      LedByAgreeAt(LeadStep, chords, r1, r2, i);
    }
  }

  // ---------------------------------------------------------------------
  // The loops of `applyVoiceLeading`
  // ---------------------------------------------------------------------

  /** Fills `candidateMidiNotes`: the given pitches, three inversions, then an octave up and down of each of those four. */
  method CandidateVoicings(midi: seq<int>) returns (c: seq<seq<int>>)
    ensures c == Candidates(midi)
  {
    TagOfNames();
    var first := ApplyInversion(midi, "first");
    var second := ApplyInversion(midi, "second");
    var third := ApplyInversion(midi, "third");
    ghost var b := BaseVoicings(midi);
    assert first == b[1] && second == b[2] && third == b[3];
    c := [midi, first, second, third];
    assert c == b;
    c := AddOctaveCopies(c);
  }

  /** The loop pushing, for each of the voicings present before it starts, the voicing an octave up and an octave down. */
  method AddOctaveCopies(b: seq<seq<int>>) returns (c: seq<seq<int>>)
    ensures c == b + OctaveCopies(b)
  {
    c := b;
    var count := |c|;
    var j := 0;
    while j < count
      invariant 0 <= j <= count == |b|
      invariant c == b + OctaveCopies(b[..j])
    {
      var notes := c[j];
      c := c + [Shifted(notes, 12), Shifted(notes, -12)];
      assert b[..j + 1][..j] == b[..j];
      j := j + 1;
    }
    assert b[..count] == b;
  }

  /** The inner `for` loop summing `Math.abs(prevChord.midi[k] - candidateNotes[k])`. */
  method MovementSteps(prev: seq<int>, cand: seq<int>) returns (m: nat)
    ensures m == Movement(prev, cand)
  {
    var n := if |prev| < |cand| then |prev| else |cand|;
    m := 0;
    var k := 0;
    while k < n
      invariant 0 <= k <= n
      invariant m == MovementUpTo(prev, cand, k)
    {
      m := m + Abs(prev[k] - cand[k]);
      k := k + 1;
    }
  }

  /** One pass of the outer loop: fill the candidates, then scan them. */
  method BestVoicing(prev: seq<int>, cur: Chord) returns (best: Chord)
    requires AllAtLeast(cur.midi, 12)
    ensures best == LeadStep(prev, cur)
  {
    var cands := CandidateVoicings(cur.midi);
    CandidatesAbove(cur.midi);
    best := ScanCandidates(prev, cur, cands);
  }

  /**
   * The `forEach` over the candidates: sort each, measure its movement, and
   * keep the chord of the first one whose movement is below the least so
   * far. No candidate has been seen while `found` is false, which plays the
   * role of `minMovement = Infinity`.
   */
  method ScanCandidates(prev: seq<int>, cur: Chord, cands: seq<seq<int>>) returns (best: Chord)
    requires |cands| > 0 && SortedAbove(cands)
    ensures best == Revoiced(cur, SortAscending(cands[FirstMinIndex(Costs(prev, cands))]))
  {
    ghost var costs := Costs(prev, cands);
    best := cur;
    var found := false;
    var minMovement := 0;
    ghost var bestIndex := 0;
    var j := 0;
    while j < |cands|
      invariant 0 <= j <= |cands|
      invariant found <==> j > 0
      invariant found ==> bestIndex < j && bestIndex == FirstMinIndex(costs[..j]) && minMovement == costs[bestIndex]
      invariant found ==> best == Revoiced(cur, SortAscending(cands[bestIndex]))
    {
      var candidateNotes := SortAscending(cands[j]);
      var currentMovement := MovementSteps(prev, candidateNotes);
      if j > 0 {
        FirstMinIndexStep(costs, j);
      }
      if !found || currentMovement < minMovement {
        minMovement := currentMovement;
        bestIndex := j;
        best := Revoiced(cur, candidateNotes);
        found := true;
      }
      j := j + 1;
    }
    assert costs[..|cands|] == costs;
  }

  /** `applyVoiceLeading(chords)`: the first chord kept, each later chord led from the previous output chord. */
  method ApplyVoiceLeading(chords: seq<Chord>) returns (r: seq<Chord>)
    requires LaterChordsNamed(chords)
    ensures IsVoiceLed(chords, r)
    ensures |chords| <= 1 ==> r == chords
  {
    if |chords| <= 1 {
      return chords;
    }
    r := [chords[0]];
    while |r| < |chords|
      invariant 1 <= |r| <= |chords| && r[0] == chords[0]
      invariant LedBy(LeadStep, chords, r)
      decreases |chords| - |r|
    {
      var i := |r|;
      var prevChord := r[i - 1];
      var bestChord := BestVoicing(prevChord.midi, chords[i]);
      LedByExtend(LeadStep, chords, r, bestChord);
      r := r + [bestChord];
    }
  }

  // ---------------------------------------------------------------------
  // Properties
  // ---------------------------------------------------------------------

  /**
   * Every chord after the first keeps its root, quality and symbol, holds
   * its own pitch classes, has ascending pitches named by `getNoteName`, and
   * moves from the previous output chord no more than the given voicing (or
   * any other candidate) would.
   */
  lemma VoiceLeadingProperties(chords: seq<Chord>, r: seq<Chord>, i: int)
    requires LaterChordsNamed(chords) && IsVoiceLed(chords, r) && 1 <= i < |chords|
    ensures r[i].root == chords[i].root && r[i].quality == chords[i].quality && r[i].symbol == chords[i].symbol
      && Ascending(r[i].midi) && |r[i].midi| == |chords[i].midi|
      && SamePitchClasses(r[i].midi, chords[i].midi)
      && Movement(r[i - 1].midi, r[i].midi) <= Movement(r[i - 1].midi, SortAscending(chords[i].midi))
  {
    assert r[i] == LeadStep(r[i - 1].midi, chords[i]);
    LeadStepIsFirstCheapest(r[i - 1].midi, chords[i]);
    CandidatesKeepPitchClasses(chords[i].midi, BestIndex(r[i - 1].midi, chords[i].midi));
  }
}

/**
 * `generateMelody`: one melody note per chord. The note is taken from the
 * chord's own notes, preferring those whose name lies in the scale built on
 * the FIRST chord's root; the first such note is drawn at random, every
 * later one is the in-scale chord note nearest to the previous melody note,
 * and a chord with no in-scale note falls back to its first note.
 */
module Melody {
  import opened Wrappers
  import opened MusicTypes
  import opened TheoryTables
  import opened Scales
  import opened Draws
  import VoiceLeading

  /** `scaleNotes.includes(note.name)`. */
  predicate InScale(scaleNotes: seq<Option<string>>, n: Note) {
    Some(n.name) in scaleNotes
  }

  /** The melody needs a first note to fall back on in every chord. */
  predicate ChordsHaveNotes(chords: seq<Chord>) {
    forall i :: 0 <= i < |chords| ==> |chords[i].notes| > 0
  }

  /** `possibleMelodyNotes`: the chord's in-scale notes, in chord order. */
  function ScaleTones(scaleNotes: seq<Option<string>>, notes: seq<Note>): (r: seq<Note>)
    ensures |r| <= |notes|
    ensures forall n :: n in r <==> n in notes && InScale(scaleNotes, n)
  {
    if notes == [] then []
    else
      var init := notes[..|notes| - 1];
      var last := notes[|notes| - 1];
      assert notes == init + [last];
      ScaleTones(scaleNotes, init) + (if InScale(scaleNotes, last) then [last] else [])
  }

  /** `Math.abs(note.midi - lastMelodyMidi)` for each candidate. */
  function Distances(possible: seq<Note>, last: int): (d: seq<nat>)
    ensures |d| == |possible|
    ensures forall k :: 0 <= k < |possible| ==> d[k] == VoiceLeading.Abs(possible[k].midi - last)
  {
    seq(|possible|, k requires 0 <= k < |possible| => VoiceLeading.Abs(possible[k].midi - last))
  }

  /** The note chosen for one chord, given the previous melody pitch (`None` before the first). */
  function MelodyNote(scaleNotes: seq<Option<string>>, chord: Chord, last: Option<int>, pick: real): (n: Note)
    requires |chord.notes| > 0 && UnitDraw(pick)
    ensures n in chord.notes
    ensures InScale(scaleNotes, n) <==> |ScaleTones(scaleNotes, chord.notes)| > 0
    ensures |ScaleTones(scaleNotes, chord.notes)| == 0 ==> n == chord.notes[0]
    ensures last.Some? ==> forall m :: m in ScaleTones(scaleNotes, chord.notes) ==>
      VoiceLeading.Abs(n.midi - last.value) <= VoiceLeading.Abs(m.midi - last.value)
  {
    var possible := ScaleTones(scaleNotes, chord.notes);
    if |possible| == 0 then chord.notes[0]
    else if last.None? then possible[PickIndex(pick, |possible|)]
    else
      var d := Distances(possible, last.value);
      var j := VoiceLeading.FirstMinIndex(d);
      assert forall m :: m in possible ==> exists k :: 0 <= k < |possible| && possible[k] == m;
      possible[j]
  }

  /** The melody for `chords`, the previous melody pitch being `last`. */
  function MelodyFrom(scaleNotes: seq<Option<string>>, chords: seq<Chord>, last: Option<int>, pick: real): (r: seq<Note>)
    requires ChordsHaveNotes(chords) && UnitDraw(pick)
    ensures |r| == |chords|
    decreases |chords|
  {
    if chords == [] then []
    else
      var n := MelodyNote(scaleNotes, chords[0], last, pick);
      [n] + MelodyFrom(scaleNotes, chords[1..], Some(n.midi), pick)
  }

  /** `generateMelody(progression, scaleName, tempo)` with its one draw `pick`. */
  function MelodyOf(progression: seq<Chord>, scaleName: string, pick: real): (r: seq<Note>)
    requires |progression| > 0 && KnownScale(scaleName) && UnitDraw(pick)
    requires ChordsHaveNotes(progression)
    ensures |r| == |progression|
  {
    MelodyFrom(GetScaleNotes(progression[0].root, scaleName), progression, None, pick)
  }

  /** One step of the `forEach`: the melody from chord `i` on starts with chord `i`'s choice. */
  lemma MelodyFromStep(scaleNotes: seq<Option<string>>, chords: seq<Chord>, i: nat, last: Option<int>, pick: real)
    requires ChordsHaveNotes(chords) && UnitDraw(pick) && i < |chords|
    ensures var n := MelodyNote(scaleNotes, chords[i], last, pick);
      MelodyFrom(scaleNotes, chords[i..], last, pick) == [n] + MelodyFrom(scaleNotes, chords[i + 1..], Some(n.midi), pick)
  {
    assert chords[i..][1..] == chords[i + 1..];
  }

  /** The loop's step: moving chord `i`'s choice onto the melody leaves melody-plus-rest unchanged. */
  lemma MelodyPrefixStep(scaleNotes: seq<Option<string>>, chords: seq<Chord>, i: nat, melody: seq<Note>, last: Option<int>, pick: real)
    requires ChordsHaveNotes(chords) && UnitDraw(pick) && i < |chords|
    ensures var n := MelodyNote(scaleNotes, chords[i], last, pick);
      (melody + [n]) + MelodyFrom(scaleNotes, chords[i + 1..], Some(n.midi), pick) == melody + MelodyFrom(scaleNotes, chords[i..], last, pick)
  {
    var n := MelodyNote(scaleNotes, chords[i], last, pick);
    MelodyFromStep(scaleNotes, chords, i, last, pick);
    NoteConcatAssoc(melody, [n], MelodyFrom(scaleNotes, chords[i + 1..], Some(n.midi), pick));
  }

  lemma NoteConcatAssoc(a: seq<Note>, b: seq<Note>, c: seq<Note>)
    ensures a + (b + c) == (a + b) + c
  {
  }

  /** Note `i` of a melody is the choice for chord `i` after note `i - 1`. */
  lemma {:induction false} MelodyFromAt(scaleNotes: seq<Option<string>>, chords: seq<Chord>, last: Option<int>, pick: real, i: nat)
    requires ChordsHaveNotes(chords) && UnitDraw(pick) && i < |chords|
    ensures MelodyFrom(scaleNotes, chords, last, pick)[i] ==
      MelodyNote(scaleNotes, chords[i], if i == 0 then last else Some(MelodyFrom(scaleNotes, chords, last, pick)[i - 1].midi), pick)
  {
    if i > 0 {
      var n := MelodyNote(scaleNotes, chords[0], last, pick);
      MelodyFromAt(scaleNotes, chords[1..], Some(n.midi), pick, i - 1);
    }
  }

  /**
   * What each melody note is: a note of its chord; in the scale of the first
   * chord's root whenever the chord has such a note, and otherwise the chord's
   * first note; the first in-scale note is the drawn one, and every later one
   * is nearest to the note before it.
   */
  lemma MelodyProperties(progression: seq<Chord>, scaleName: string, pick: real, i: nat)
    requires |progression| > 0 && KnownScale(scaleName) && UnitDraw(pick)
    requires ChordsHaveNotes(progression) && i < |progression|
    ensures MelodyOf(progression, scaleName, pick)[i] in progression[i].notes
    ensures var possible := ScaleTones(GetScaleNotes(progression[0].root, scaleName), progression[i].notes);
      |possible| == 0 ==> MelodyOf(progression, scaleName, pick)[i] == progression[i].notes[0]
    ensures var possible := ScaleTones(GetScaleNotes(progression[0].root, scaleName), progression[i].notes);
      |possible| > 0 ==> MelodyOf(progression, scaleName, pick)[i] in possible
    ensures var possible := ScaleTones(GetScaleNotes(progression[0].root, scaleName), progression[i].notes);
      i == 0 && |possible| > 0 ==> MelodyOf(progression, scaleName, pick)[0] == possible[PickIndex(pick, |possible|)]
    ensures var m := MelodyOf(progression, scaleName, pick);
      var possible := ScaleTones(GetScaleNotes(progression[0].root, scaleName), progression[i].notes);
      i > 0 ==> forall n :: n in possible ==>
        VoiceLeading.Abs(m[i].midi - m[i - 1].midi) <= VoiceLeading.Abs(n.midi - m[i - 1].midi)
  {
    MelodyFromAt(GetScaleNotes(progression[0].root, scaleName), progression, None, pick, i);
  }

  /**
   * Among equally near in-scale notes the earliest wins: for a later chord
   * the chosen note is the first candidate at the least distance.
   */
  lemma NearestIsFirst(progression: seq<Chord>, scaleName: string, pick: real, i: nat)
    requires |progression| > 0 && KnownScale(scaleName) && UnitDraw(pick)
    requires ChordsHaveNotes(progression) && 0 < i < |progression|
    requires |ScaleTones(GetScaleNotes(progression[0].root, scaleName), progression[i].notes)| > 0
    ensures var m := MelodyOf(progression, scaleName, pick);
      var possible := ScaleTones(GetScaleNotes(progression[0].root, scaleName), progression[i].notes);
      exists j :: 0 <= j < |possible| && m[i] == possible[j] && NearestFirstAt(possible, m[i - 1].midi, j)
  {
    var scaleNotes := GetScaleNotes(progression[0].root, scaleName);
    var m := MelodyFrom(scaleNotes, progression, None, pick);
    MelodyFromAt(scaleNotes, progression, None, pick, i);
    var j := NearestChoiceIsFirst(scaleNotes, progression[i], m[i - 1].midi, pick);
  }

  /** No candidate before index `j` is as near to `last` as candidate `j`. */
  predicate NearestFirstAt(possible: seq<Note>, last: int, j: nat)
    requires j < |possible|
  {
    forall k :: 0 <= k < j ==> VoiceLeading.Abs(possible[k].midi - last) > VoiceLeading.Abs(possible[j].midi - last)
  }

  lemma NearestChoiceIsFirst(scaleNotes: seq<Option<string>>, chord: Chord, last: int, pick: real) returns (j: nat)
    requires |chord.notes| > 0 && UnitDraw(pick) && |ScaleTones(scaleNotes, chord.notes)| > 0
    ensures j < |ScaleTones(scaleNotes, chord.notes)|
    ensures MelodyNote(scaleNotes, chord, Some(last), pick) == ScaleTones(scaleNotes, chord.notes)[j]
    ensures NearestFirstAt(ScaleTones(scaleNotes, chord.notes), last, j)
  {
    var possible := ScaleTones(scaleNotes, chord.notes);
    j := VoiceLeading.FirstMinIndex(Distances(possible, last));
  }

  /** Every in-scale note of the first chord opens the melody for some draw. */
  lemma FirstNoteReachable(progression: seq<Chord>, scaleName: string, k: nat)
    requires |progression| > 0 && KnownScale(scaleName) && ChordsHaveNotes(progression)
    requires k < |ScaleTones(GetScaleNotes(progression[0].root, scaleName), progression[0].notes)|
    ensures var possible := ScaleTones(GetScaleNotes(progression[0].root, scaleName), progression[0].notes);
      UnitDraw(k as real / |possible| as real) &&
      MelodyOf(progression, scaleName, k as real / |possible| as real)[0] == possible[k]
  {
    var possible := ScaleTones(GetScaleNotes(progression[0].root, scaleName), progression[0].notes);
    PickIndexReachesAll(k, |possible|);
    MelodyProperties(progression, scaleName, k as real / |possible| as real, 0);
  }

  /** The `filter` over the chord's notes. */
  method FilterScaleTones(scaleNotes: seq<Option<string>>, notes: seq<Note>) returns (possible: seq<Note>)
    ensures possible == ScaleTones(scaleNotes, notes)
  {
    possible := [];
    var i := 0;
    while i < |notes|
      invariant 0 <= i <= |notes|
      invariant possible == ScaleTones(scaleNotes, notes[..i])
    {
      assert notes[..i + 1][..i] == notes[..i];
      if Some(notes[i].name) in scaleNotes {
        possible := possible + [notes[i]];
      }
      i := i + 1;
    }
    assert notes[..i] == notes;
  }

  /** The `minDistance` scan: a candidate replaces the current one only when strictly nearer. */
  method NearestTone(possible: seq<Note>, last: int) returns (chosen: Note)
    requires |possible| > 0
    ensures chosen == possible[VoiceLeading.FirstMinIndex(Distances(possible, last))]
  {
    ghost var d := Distances(possible, last);
    var minDistance: Option<nat> := None;  // `Infinity` until the first candidate
    var best: nat := 0;
    var i := 0;
    while i < |possible|
      invariant 0 <= i <= |possible|
      invariant i == 0 <==> minDistance.None?
      invariant i > 0 ==> best == VoiceLeading.FirstMinIndex(d[..i]) && minDistance == Some(d[best])
    {
      assert d[..i + 1][..i] == d[..i];
      var distance := VoiceLeading.Abs(possible[i].midi - last);
      if minDistance.None? || distance < minDistance.value {
        minDistance := Some(distance);
        best := i;
      }
      i := i + 1;
    }
    assert d[..i] == d;
    chosen := possible[best];
  }

  /** The body of the `forEach` callback: the note for one chord. */
  method ChooseNote(scaleNotes: seq<Option<string>>, chord: Chord, lastMelodyMidi: Option<int>, pick: real) returns (note: Note)
    requires |chord.notes| > 0 && UnitDraw(pick)
    ensures note == MelodyNote(scaleNotes, chord, lastMelodyMidi, pick)
  {
    var possible := FilterScaleTones(scaleNotes, chord.notes);
    var chosen: Option<Note> := None;
    if |possible| > 0 {
      if lastMelodyMidi.Some? {
        var c := NearestTone(possible, lastMelodyMidi.value);
        chosen := Some(c);
      } else {
        chosen := Some(possible[PickIndex(pick, |possible|)]);
      }
    }
    if chosen.Some? {
      note := chosen.value;
    } else {
      note := chord.notes[0];
    }
  }

  /** `generateMelody`: `tempo` is accepted and not used; `pick` is the one `Math.random()` the first note needs. */
  method GenerateMelody(progression: seq<Chord>, scaleName: string, tempo: int, pick: real) returns (melody: seq<Note>)
    requires |progression| > 0 && KnownScale(scaleName) && UnitDraw(pick)
    requires ChordsHaveNotes(progression)
    ensures melody == MelodyOf(progression, scaleName, pick)
  {
    melody := [];
    var scaleNotes := GetScaleNotes(progression[0].root, scaleName);
    assert progression[0..] == progression;
    var lastMelodyMidi: Option<int> := None;
    var i := 0;
    while i < |progression|
      invariant 0 <= i <= |progression| && |melody| == i
      invariant lastMelodyMidi == if i == 0 then None else Some(melody[i - 1].midi)
      invariant melody + MelodyFrom(scaleNotes, progression[i..], lastMelodyMidi, pick) == MelodyFrom(scaleNotes, progression, None, pick)
    {
      var note := ChooseNote(scaleNotes, progression[i], lastMelodyMidi, pick);
      MelodyPrefixStep(scaleNotes, progression, i, melody, lastMelodyMidi, pick);
      melody := melody + [note];
      lastMelodyMidi := Some(note.midi);
      i := i + 1;
    }
    assert progression[i..] == [];
    assert melody + [] == melody;
  }
}

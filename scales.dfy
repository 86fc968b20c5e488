/**
 * The scale and diatonic model: `getScaleNotes`, `getDiatonicChordQuality`
 * and the small chord classifier `getChordName`.
 */
module Scales {
  import opened Wrappers
  import opened Sorting
  import opened JsBuiltins
  import opened TheoryTables

  /** Below two octaves, reducing modulo 12 subtracts at most one octave. */
  lemma WrapWithinTwoOctaves()
    ensures forall x :: 0 <= x < 24 ==> x % 12 == (if x < 12 then x else x - 12)
  {
    forall x | 0 <= x < 24 ensures x % 12 == (if x < 12 then x else x - 12) {
      if x < 12 { DivMod12(0, x); } else { DivMod12(1, x - 12); }
    }
  }

  /** The intervals of some scale in the table, as the proofs below use them. */
  predicate ScaleShape(iv: seq<int>) {
    |iv| > 0 && iv[0] == 0 && StrictlyAscending(iv) && forall k :: 0 <= k < |iv| ==> 0 <= iv[k] <= 11
  }

  /** `NOTES[i]`: `None` (JavaScript `undefined`) outside the alphabet. */
  function NoteAt(i: int): Option<string> {
    if 0 <= i < 12 then Some(Notes[i]) else None
  }

  /** `NOTES.indexOf(root)`, where an `undefined` root finds nothing. */
  function RootIndex(root: Option<string>): (i: int)
    ensures -1 <= i < 12
    ensures i >= 0 <==> root.Some? && root.value in Notes
    ensures i >= 0 ==> Notes[i] == root.value
  {
    if root.None? then -1 else NoteIndex(root.value)
  }

  /** The `map` step of `getScaleNotes` for a root of index `rootIndex` (-1 for none). */
  function ScaleNotesFrom(rootIndex: int, iv: seq<int>): (names: seq<Option<string>>)
    ensures |names| == |iv|
    ensures forall k :: 0 <= k < |iv| ==> names[k] == NoteAt(TruncRem12(rootIndex + iv[k]))
  {
    seq(|iv|, k requires 0 <= k < |iv| => NoteAt(TruncRem12(rootIndex + iv[k])))
  }

  /** On a real root, degree `k` is named by the pitch class `iv[k]` semitones above the root. */
  lemma ScaleNoteAt(rootIndex: int, iv: seq<int>, k: int)
    requires 0 <= rootIndex < 12 && 0 <= k < |iv| && 0 <= iv[k] <= 11
    ensures ScaleNotesFrom(rootIndex, iv)[k] == Some(Notes[(rootIndex + iv[k]) % 12])
  {
  }

  /** On a real root, the first degree is the root's own name. */
  lemma ScaleRootFirst(rootIndex: int, iv: seq<int>)
    requires 0 <= rootIndex < 12 && ScaleShape(iv)
    ensures ScaleNotesFrom(rootIndex, iv)[0] == Some(Notes[rootIndex])
  {
    DivMod12(0, rootIndex);
    assert TruncRem12(rootIndex + iv[0]) == rootIndex;
  }

  /** Two different degrees of a scale shape land on different pitch classes. */
  lemma ScaleNotesDistinctAt(rootIndex: int, iv: seq<int>, i: int, j: int)
    requires 0 <= rootIndex < 12 && ScaleShape(iv) && 0 <= i < j < |iv|
    ensures ScaleNotesFrom(rootIndex, iv)[i] != ScaleNotesFrom(rootIndex, iv)[j]
  {
    var a := rootIndex + iv[i];
    var b := rootIndex + iv[j];
    assert 0 <= a < b < 24 && b - a < 12;
    WrapWithinTwoOctaves();
    assert a % 12 != b % 12;
    ScaleNoteAt(rootIndex, iv, i);
    ScaleNoteAt(rootIndex, iv, j);
    NoteIndexAt(a % 12);
    NoteIndexAt(b % 12);
  }

  /** Name k is the note at pitch class `rootIndex + iv[k]`. */
  predicate NamedAtPitchClasses(names: seq<Option<string>>, rootIndex: int, iv: seq<int>) {
    |names| == |iv|
    && forall k :: 0 <= k < |names| ==>
      names[k].Some? && names[k].value in Notes && NoteIndex(names[k].value) == (rootIndex + iv[k]) % 12
  }

  /** No two names are the same. */
  predicate DistinctNames(names: seq<Option<string>>) {
    forall i, j :: 0 <= i < j < |names| ==> names[i] != names[j]
  }

  /** Name k, after the first, is the note a semitone below interval k. */
  predicate NamedBelowIntervals(names: seq<Option<string>>, iv: seq<int>) {
    |names| == |iv|
    && forall k :: 1 <= k < |names| ==> 1 <= iv[k] <= 12 && names[k] == Some(Notes[iv[k] - 1])
  }

  /** On a real root, every degree is named, the root first, each pitch class once. */
  lemma ScaleNotesOfNote(rootIndex: int, iv: seq<int>)
    requires 0 <= rootIndex < 12 && ScaleShape(iv)
    ensures var names := ScaleNotesFrom(rootIndex, iv);
      && names[0] == Some(Notes[rootIndex])
      && NamedAtPitchClasses(names, rootIndex, iv)
      && DistinctNames(names)
  {
    ScaleRootFirst(rootIndex, iv);
    ScaleNotesNamed(rootIndex, iv);
    ScaleNotesDistinct(rootIndex, iv);
  }

  /** On a real root, every degree is a name of the alphabet, at the index of its pitch class. */
  lemma ScaleNotesNamed(rootIndex: int, iv: seq<int>)
    requires 0 <= rootIndex < 12 && ScaleShape(iv)
    ensures forall k :: 0 <= k < |iv| ==>
      var n := ScaleNotesFrom(rootIndex, iv)[k];
      n.Some? && n.value in Notes && NoteIndex(n.value) == (rootIndex + iv[k]) % 12
  {
    forall k | 0 <= k < |iv|
      ensures var n := ScaleNotesFrom(rootIndex, iv)[k];
        n.Some? && n.value in Notes && NoteIndex(n.value) == (rootIndex + iv[k]) % 12
    {
      ScaleNoteAt(rootIndex, iv, k);
      NoteIndexAt((rootIndex + iv[k]) % 12);
    }
  }

  /** On a real root, no two degrees share a name. */
  lemma ScaleNotesDistinct(rootIndex: int, iv: seq<int>)
    requires 0 <= rootIndex < 12 && ScaleShape(iv)
    ensures forall i, j :: 0 <= i < j < |iv| ==> ScaleNotesFrom(rootIndex, iv)[i] != ScaleNotesFrom(rootIndex, iv)[j]
  {
    forall i, j | 0 <= i < j < |iv|
      ensures ScaleNotesFrom(rootIndex, iv)[i] != ScaleNotesFrom(rootIndex, iv)[j]
    {
      ScaleNotesDistinctAt(rootIndex, iv, i, j);
    }
  }

  /** Without a root the first degree is undefined and the others are named a semitone low. */
  lemma ScaleNotesWithoutRoot(iv: seq<int>)
    requires ScaleShape(iv)
    ensures var names := ScaleNotesFrom(-1, iv);
      && names[0] == None
      && NamedBelowIntervals(names, iv)
  {
    DivMod12(-1, 11);
    forall k | 1 <= k < |iv| ensures 1 <= iv[k] <= 12 && ScaleNotesFrom(-1, iv)[k] == Some(Notes[iv[k] - 1]) {
      NoteWithoutRootAt(iv, k);
    }
  }

  /** Without a root, degree `k > 0` is named a semitone below its interval. */
  lemma NoteWithoutRootAt(iv: seq<int>, k: int)
    requires ScaleShape(iv) && 1 <= k < |iv|
    ensures 1 <= iv[k] <= 11 && ScaleNotesFrom(-1, iv)[k] == Some(Notes[iv[k] - 1])
  {
    assert iv[0] < iv[k];
    DivMod12(0, iv[k] - 1);
    assert TruncRem12(-1 + iv[k]) == iv[k] - 1;
  }

  /**
   * `getScaleNotes(root, scaleName)`: the names of the scale's degrees
   * starting on `root`, each pitch class once.
   */
  function GetScaleNotes(root: Option<string>, scaleName: string): (names: seq<Option<string>>)
    requires KnownScale(scaleName)
    ensures |names| == |ScaleIntervals(scaleName)|
    ensures RootIndex(root) >= 0 ==> names[0] == root
    ensures RootIndex(root) >= 0 ==> forall k :: 0 <= k < |names| ==> names[k].Some? && names[k].value in Notes
    ensures RootIndex(root) >= 0 ==> forall i, j :: 0 <= i < j < |names| ==> names[i] != names[j]
    ensures RootIndex(root) < 0 ==> names[0] == None
  {
    var iv := ScaleIntervals(scaleName);
    if RootIndex(root) >= 0 then
      ScaleNotesOfNote(RootIndex(root), iv);
      ScaleNotesFrom(RootIndex(root), iv)
    else
      ScaleNotesWithoutRoot(iv);
      ScaleNotesFrom(-1, iv)
  }

  /**
   * Which names `getScaleNotes` gives: on a real root, name k is the note at
   * pitch class (root index + interval k) mod 12; on an undefined root, every
   * name after the first is the note a semitone below its interval.
   */
  lemma ScaleNotesPitchClasses(root: Option<string>, scaleName: string)
    requires KnownScale(scaleName)
    ensures RootIndex(root) >= 0 ==>
      NamedAtPitchClasses(GetScaleNotes(root, scaleName), RootIndex(root), ScaleIntervals(scaleName))
    ensures RootIndex(root) < 0 ==> NamedBelowIntervals(GetScaleNotes(root, scaleName), ScaleIntervals(scaleName))
  {
    var iv := ScaleIntervals(scaleName);
    if RootIndex(root) >= 0 {
      ScaleNotesOfNote(RootIndex(root), iv);
    } else {
      ScaleNotesWithoutRoot(iv);
    }
  }

  /** The qualities `getDiatonicChordQuality` can answer. */
  const DiatonicQualities: set<string> :=
    {"maj7", "dom7", "major", "min7", "minor", "dim7", "min7b5", "diminished"}

  /**
   * The `getInterval` closure: semitones from the scale note of degree
   * `start` up to that of degree `target`, degrees wrapping around the scale
   * and a negative difference lifted by an octave.
   */
  function DegreeInterval(iv: seq<int>, start: int, target: int): (d: int)
    requires |iv| > 0 && start >= 1 && target >= 1
    requires forall k :: 0 <= k < |iv| ==> 0 <= iv[k] <= 11
    ensures 0 <= d <= 11
  {
    var startIndex := Wrap(start - 1, |iv|);
    var targetIndex := Wrap(target - 1, |iv|);
    var interval := iv[targetIndex] - iv[startIndex];
    if interval < 0 then interval + 12 else interval
  }

  /** `x % n` for a non-negative `x`, by removing whole multiples of `n`. */
  function Wrap(x: nat, n: nat): (r: nat)
    requires n > 0
    ensures r < n
    decreases x
  {
    if x < n then x else Wrap(x - n, n)
  }

  /** Wrapping agrees with the remainder operator. */
  lemma {:induction false} WrapIsRemainder(x: nat, n: nat)
    requires n > 0
    ensures Wrap(x, n) == x % n
    decreases x
  {
    if x >= n {
      WrapIsRemainder(x - n, n);
      ModShift(x - n, n);
    }
  }

  /** The classification of a (third, fifth, seventh) triple of intervals. */
  function ClassifyChord(third: int, fifth: int, seventh: int): (q: string)
    ensures q in DiatonicQualities
  {
    if third == 4 && fifth == 7 then
      if seventh == 11 then "maj7" else if seventh == 10 then "dom7" else "major"
    else if third == 3 && fifth == 7 then
      if seventh == 10 then "min7" else "minor"
    else if third == 3 && fifth == 6 then
      if seventh == 9 then "dim7" else if seventh == 10 then "min7b5" else "diminished"
    else "major"
  }

  /** The quality of the seventh chord stacked in thirds on `degree` of a scale with intervals `iv`. */
  function StackedQuality(iv: seq<int>, degree: int): (q: string)
    requires ScaleShape(iv) && degree >= 1
    ensures q in DiatonicQualities
  {
    ClassifyChord(
      DegreeInterval(iv, degree, degree + 2),
      DegreeInterval(iv, degree, degree + 4),
      DegreeInterval(iv, degree, degree + 6))
  }

  /** `getDiatonicChordQuality(scaleName, degree)`; an unknown scale answers "major". */
  function DiatonicChordQuality(scaleName: string, degree: int): (q: string)
    requires degree >= 1
    ensures q in DiatonicQualities
    ensures !KnownScale(scaleName) ==> q == "major"
  {
    if !KnownScale(scaleName) then "major"
    else StackedQuality(ScaleIntervals(scaleName), degree)
  }

  lemma ModShift(x: int, n: int)
    requires n > 0
    ensures (x + n) % n == x % n
  {
    var d := (x + n) / n - x / n - 1;
    assert n * d == x % n - (x + n) % n;
  }

  lemma DegreeIntervalPeriodic(iv: seq<int>, start: int, target: int)
    requires |iv| > 0 && start >= 1 && target >= 1
    requires forall k :: 0 <= k < |iv| ==> 0 <= iv[k] <= 11
    ensures DegreeInterval(iv, start + |iv|, target + |iv|) == DegreeInterval(iv, start, target)
  {
    assert Wrap(start + |iv| - 1, |iv|) == Wrap(start - 1, |iv|);
    assert Wrap(target + |iv| - 1, |iv|) == Wrap(target - 1, |iv|);
  }

  /** Degree arithmetic wraps: a degree one scale-length higher has the same quality. */
  lemma StackedQualityPeriodic(iv: seq<int>, degree: int)
    requires ScaleShape(iv) && degree >= 1
    ensures StackedQuality(iv, degree + |iv|) == StackedQuality(iv, degree)
  {
    var n := |iv|;
    DegreeIntervalPeriodic(iv, degree, degree + 2);
    DegreeIntervalPeriodic(iv, degree, degree + 4);
    DegreeIntervalPeriodic(iv, degree, degree + 6);
    assert degree + n + 2 == degree + 2 + n;
    assert degree + n + 4 == degree + 4 + n;
    assert degree + n + 6 == degree + 6 + n;
  }

  /** The seven degrees of the major scale: I maj7, ii min7, iii min7, IV maj7, V dom7, vi min7, vii min7b5. */
  lemma MajorScaleQualities()
    ensures DiatonicChordQuality("major", 1) == "maj7"
    ensures DiatonicChordQuality("major", 2) == "min7"
    ensures DiatonicChordQuality("major", 3) == "min7"
    ensures DiatonicChordQuality("major", 4) == "maj7"
    ensures DiatonicChordQuality("major", 5) == "dom7"
    ensures DiatonicChordQuality("major", 6) == "min7"
    ensures DiatonicChordQuality("major", 7) == "min7b5"
  {
    ScaleTagOfNames();
    assert ScaleIntervals("major") == [0, 2, 4, 5, 7, 9, 11];
    MajorLowerDegrees();
    MajorUpperDegrees();
  }

  lemma MajorLowerDegrees()
    ensures StackedQuality([0, 2, 4, 5, 7, 9, 11], 1) == "maj7"
    ensures StackedQuality([0, 2, 4, 5, 7, 9, 11], 2) == "min7"
    ensures StackedQuality([0, 2, 4, 5, 7, 9, 11], 3) == "min7"
    ensures StackedQuality([0, 2, 4, 5, 7, 9, 11], 4) == "maj7"
  {
  }

  lemma MajorUpperDegrees()
    ensures StackedQuality([0, 2, 4, 5, 7, 9, 11], 5) == "dom7"
    ensures StackedQuality([0, 2, 4, 5, 7, 9, 11], 6) == "min7"
    ensures StackedQuality([0, 2, 4, 5, 7, 9, 11], 7) == "min7b5"
  {
  }

  /** Degree vii of harmonic minor is a diminished seventh; degree i of harmonic minor a plain minor triad. */
  lemma HarmonicMinorQualities()
    ensures DiatonicChordQuality("harmonic_minor", 7) == "dim7"
    ensures DiatonicChordQuality("harmonic_minor", 1) == "minor"
  {
    ScaleTagOfNames();
    assert ScaleIntervals("harmonic_minor") == [0, 2, 3, 5, 7, 8, 11];
    HarmonicMinorDegrees();
  }

  lemma HarmonicMinorDegrees()
    ensures StackedQuality([0, 2, 3, 5, 7, 8, 11], 7) == "dim7"
    ensures StackedQuality([0, 2, 3, 5, 7, 8, 11], 1) == "minor"
  {
  }

  /** Each later note against the first, by JavaScript `%` (negative for a note below the first). */
  function RawChordNameIntervals(midiNotes: seq<int>): (raw: seq<int>)
    requires |midiNotes| > 0
    ensures |raw| == |midiNotes| - 1
    ensures forall k :: 0 <= k < |raw| ==> raw[k] == TruncRem12(midiNotes[k + 1] - midiNotes[0])
    ensures forall k :: 0 <= k < |raw| ==>
      -12 < raw[k] < 12 && (midiNotes[k + 1] - midiNotes[0] - raw[k]) % 12 == 0
      && (midiNotes[k + 1] >= midiNotes[0] ==> raw[k] >= 0)
  {
    seq(|midiNotes| - 1, k requires 0 <= k < |midiNotes| - 1 => TruncRem12(midiNotes[k + 1] - midiNotes[0]))
  }

  /** The intervals `getChordName` tests: the raw intervals, sorted. */
  function ChordNameIntervals(midiNotes: seq<int>): (iv: seq<int>)
    requires |midiNotes| > 0
    ensures forall x :: x in iv <==> x in RawChordNameIntervals(midiNotes)
  {
    var raw := RawChordNameIntervals(midiNotes);
    var iv := SortAscending(raw);
    assert forall x :: x in iv <==> x in multiset(raw);
    iv
  }

  /**
   * `getChordName(midiNotes)`, written as the source has it. Its three
   * seventh-chord branches test supersets of the first two conditions, so
   * only "Major", "Minor" and "Unknown Chord" can come out.
   */
  function GetChordName(midiNotes: seq<int>): (name: string)
    requires midiNotes != [] ==> midiNotes[0] >= 0
    ensures midiNotes == [] ==> name == "No Chord"
    ensures midiNotes != [] ==>
      var root := GetNoteName(midiNotes[0]);
      var iv := RawChordNameIntervals(midiNotes);
      name == (if 4 in iv && 7 in iv then root + " Major"
               else if 3 in iv && 7 in iv then root + " Minor"
               else root + " Unknown Chord")
  {
    if |midiNotes| == 0 then "No Chord"
    else
      var rootMidi := midiNotes[0];
      var rootNote := Notes[rootMidi % 12];
      var intervals := ChordNameIntervals(midiNotes);
      if 4 in intervals && 7 in intervals then rootNote + " Major"
      else if 3 in intervals && 7 in intervals then rootNote + " Minor"
      else if 4 in intervals && 7 in intervals && 10 in intervals then rootNote + " Dominant 7"
      else if 3 in intervals && 7 in intervals && 10 in intervals then rootNote + " Minor 7"
      else if 4 in intervals && 7 in intervals && 11 in intervals then rootNote + " Major 7"
      else rootNote + " Unknown Chord"
  }

  /**
   * `getChordName` as evidently intended: the seventh chords are examined
   * before the triads they contain, so each of the five names is reachable.
   */
  function GetChordNameCorrected(midiNotes: seq<int>): (name: string)
    requires midiNotes != [] ==> midiNotes[0] >= 0
    ensures midiNotes == [] ==> name == "No Chord"
  {
    if |midiNotes| == 0 then "No Chord"
    else
      var rootNote := Notes[midiNotes[0] % 12];
      var intervals := ChordNameIntervals(midiNotes);
      if 4 in intervals && 7 in intervals && 10 in intervals then rootNote + " Dominant 7"
      else if 3 in intervals && 7 in intervals && 10 in intervals then rootNote + " Minor 7"
      else if 4 in intervals && 7 in intervals && 11 in intervals then rootNote + " Major 7"
      else if 4 in intervals && 7 in intervals then rootNote + " Major"
      else if 3 in intervals && 7 in intervals then rootNote + " Minor"
      else rootNote + " Unknown Chord"
  }

  /**
   * The corrected classifier names every chord by the most specific
   * pattern its intervals above the lowest note contain.
   */
  lemma CorrectedChordNames(midiNotes: seq<int>)
    requires midiNotes != [] && midiNotes[0] >= 0
    ensures var root := GetNoteName(midiNotes[0]);
      var iv := RawChordNameIntervals(midiNotes);
      var name := GetChordNameCorrected(midiNotes);
      (4 in iv && 7 in iv && 10 in iv ==> name == root + " Dominant 7") &&
      (3 in iv && 7 in iv && 10 in iv && 4 !in iv ==> name == root + " Minor 7") &&
      (4 in iv && 7 in iv && 11 in iv && 10 !in iv ==> name == root + " Major 7") &&
      (4 in iv && 7 in iv && 10 !in iv && 11 !in iv ==> name == root + " Major") &&
      (3 in iv && 7 in iv && 4 !in iv && 10 !in iv ==> name == root + " Minor") &&
      (!(7 in iv && (3 in iv || 4 in iv)) ==> name == root + " Unknown Chord")
  {
  }

  /**
   * Every dominant seventh chord, in whatever voicing keeps its root lowest:
   * the classifier as written calls it a major triad, the corrected one a
   * dominant seventh.
   */
  lemma DominantSeventhNamedMajor(midiNotes: seq<int>)
    requires midiNotes != [] && midiNotes[0] >= 0
    requires var iv := RawChordNameIntervals(midiNotes); 4 in iv && 7 in iv && 10 in iv
    ensures GetChordName(midiNotes) == GetNoteName(midiNotes[0]) + " Major"
    ensures GetChordNameCorrected(midiNotes) == GetNoteName(midiNotes[0]) + " Dominant 7"
  {
    CorrectedChordNames(midiNotes);
  }

  /** C, E, G, B flat above middle C is such a chord. */
  lemma MiddleCDominantSeventh()
    ensures var iv := RawChordNameIntervals([60, 64, 67, 70]); 4 in iv && 7 in iv && 10 in iv
    ensures GetNoteName(60) == "C"
  {
    var iv := RawChordNameIntervals([60, 64, 67, 70]);
    assert iv[0] == 4 && iv[1] == 7 && iv[2] == 10;
    DivMod12(5, 0);
  }
}

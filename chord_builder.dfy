/**
 * `getChordFromScale`: the chord on one degree of a scale. The chord type
 * is resolved (given, or derived from the diatonic quality), its intervals
 * are looked up, one extension and one alteration may be added, the
 * intervals become MIDI numbers above the chord root and the result may be
 * inverted. The calls to `Math.random()` arrive as the four draws of a
 * `ChordDraws`.
 */
module ChordBuilder {
  import opened Wrappers
  import opened Sorting
  import opened JsBuiltins
  import opened MusicTypes
  import opened TheoryTables
  import opened Scales
  import opened Draws
  import opened Voicing

  /** The optional arguments; `None` is `undefined`. */
  datatype ChordOptions = ChordOptions(
    chordType: Option<string>,
    inversion: Option<string>,
    extensionDensity: Option<string>,
    alterationProbability: Option<real>)

  /** The values of the four `Math.random()` calls, in the order the source makes them. */
  datatype ChordDraws = ChordDraws(extension: real, extensionPick: real, alteration: real, alterationPick: real)

  predicate ValidChordDraws(d: ChordDraws) {
    UnitDraw(d.extension) && UnitDraw(d.extensionPick) && UnitDraw(d.alteration) && UnitDraw(d.alterationPick)
  }

  /** A string argument JavaScript treats as true: present and non-empty. */
  predicate Truthy(s: Option<string>) {
    s.Some? && s.value != ""
  }

  // ---------------------------------------------------------------------
  // Chord type and base intervals
  // ---------------------------------------------------------------------

  /** The `switch` that picks a chord type from a diatonic quality. */
  function DefaultChordType(diatonic: string): string {
    match diatonic
    case "major" => "maj7"
    case "minor" => "min7"
    case "dom7" => "dom7"
    case "min7b5" => "min7b5"
    case "dim7" => "dim7"
    case _ => "triad"
  }

  /** `determinedChordType`: the given type if truthy, else the default for the degree's diatonic quality. */
  function DeterminedChordType(chordType: Option<string>, scaleName: string, degree: int): string
    requires degree >= 1
  {
    if Truthy(chordType) then chordType.value
    else DefaultChordType(DiatonicChordQuality(scaleName, degree))
  }

  /** A chord's intervals as the proofs need them: from 0 up, strictly rising, within 21 semitones. */
  predicate IntervalShape(iv: seq<int>) {
    |iv| > 0 && iv[0] == 0 && StrictlyAscending(iv) && forall k :: 0 <= k < |iv| ==> 0 <= iv[k] <= 21
  }

  /** `baseChordIntervals[type] || baseChordIntervals['triad']`. */
  function TableIntervals(chordType: string): (iv: seq<int>)
    ensures IntervalShape(iv) && 3 <= |iv| <= 7
  {
    match ChordTypeIntervals(chordType)
    case Some(iv) => RisingIsStrict(iv); iv
    case None => [0, 4, 7]
  }

  /** The intervals of a chord together with its symbol suffix. */
  datatype Shape = Shape(intervals: seq<int>, symbol: string)

  /**
   * The intervals and symbol before extensions: the table entry and the type
   * itself, except that the literal type "triad" is re-resolved by the
   * diatonic quality into a minor ("m"), diminished ("dim") or major ("") triad.
   */
  function BaseShape(chordType: string, diatonic: string): (sh: Shape)
    ensures IntervalShape(sh.intervals) && 3 <= |sh.intervals| <= 7
  {
    if chordType == "triad" then
      if diatonic == "minor" then Shape([0, 3, 7], "m")
      else if diatonic == "diminished" then Shape([0, 3, 6], "dim")
      else Shape(TableIntervals(chordType), "")
    else Shape(TableIntervals(chordType), chordType)
  }

  // ---------------------------------------------------------------------
  // Extension
  // ---------------------------------------------------------------------

  /** `EXTENSION_DENSITIES[extensionDensity || 'none']?.probability || 0`. */
  function ExtensionProbability(density: Option<string>): (p: real)
    ensures 0.0 <= p <= 1.0
  {
    match ExtensionDensityNamed(if Truthy(density) then density.value else "none")
    case Some(d) => d.probability
    case None => 0.0
  }

  /** The ninth, eleventh and thirteenth the chord does not hold yet, in that order. */
  function ExtensionCandidates(iv: seq<int>): (c: seq<int>)
    ensures forall e :: e in c <==> e in {14, 17, 21} && e !in iv
    ensures |c| <= 3
  {
    (if 14 !in iv then [14] else []) + (if 17 !in iv then [17] else []) + (if 21 !in iv then [21] else [])
  }

  /** The extension `Math.floor(pick * candidates.length)` selects. */
  function ChosenExtension(iv: seq<int>, pick: real): (e: int)
    requires ExtensionCandidates(iv) != [] && UnitDraw(pick)
    ensures e in {14, 17, 21} && e !in iv
  {
    var candidates := ExtensionCandidates(iv);
    candidates[PickIndex(pick, |candidates|)]
  }

  /** The symbol rewrite for the chosen extension; each `replace` changes the first occurrence only. */
  function ExtensionSymbol(symbol: string, extension: int): string {
    if extension == 21 then ReplaceFirst(ReplaceFirst(ReplaceFirst(symbol, "7", "13"), "9", "13"), "11", "13")
    else if extension == 17 then ReplaceFirst(ReplaceFirst(symbol, "7", "11"), "9", "11")
    else if extension == 14 then ReplaceFirst(symbol, "7", "9")
    else symbol
  }

  /**
   * The extension step: when the roll is below the density's probability and
   * the chord has at least four notes, one missing extension is chosen, added
   * and the intervals re-sorted.
   */
  function Extend(sh: Shape, probability: real, roll: real, pick: real): (r: Shape)
    requires IntervalShape(sh.intervals) && UnitDraw(pick)
    ensures IntervalShape(r.intervals)
    ensures |sh.intervals| <= |r.intervals| <= |sh.intervals| + 1
  {
    if roll < probability && |sh.intervals| >= 4 then
      var candidates := ExtensionCandidates(sh.intervals);
      if |candidates| > 0 then
        var e := ChosenExtension(sh.intervals, pick);
        PushKeepsShape(sh.intervals, e);
        Shape(SortAscending(sh.intervals + [e]), ExtensionSymbol(sh.symbol, e))
      else sh
    else sh
  }

  /** Adding a new non-negative interval within 21 and re-sorting keeps the interval shape. */
  lemma PushKeepsShape(iv: seq<int>, x: int)
    requires IntervalShape(iv) && 0 < x <= 21 && x !in iv
    ensures IntervalShape(SortAscending(iv + [x]))
    ensures multiset(SortAscending(iv + [x])) == multiset(iv) + multiset{x}
  {
    var r := SortAscending(iv + [x]);
    SortPushStrict(iv, x);
    forall k | 0 <= k < |r| ensures 0 <= r[k] <= 21 {
      assert r[k] in multiset(iv + [x]);
      assert r[k] in iv + [x];
    }
    assert 0 in multiset(iv + [x]) by { assert (iv + [x])[0] == 0; }
    assert 0 in r;
    var j :| 0 <= j < |r| && r[j] == 0;
    assert r[0] <= r[j];
  }

  // ---------------------------------------------------------------------
  // Alteration
  // ---------------------------------------------------------------------

  /** One altered tension: its interval and the label appended to the symbol. */
  datatype Alteration = Alteration(interval: int, suffix: string)

  /** b9, #9, #11 and b13, each unless the chord already holds its interval. */
  function AlterationCandidates(iv: seq<int>): (c: seq<Alteration>)
    ensures forall a :: a in c ==> a.interval in {13, 15, 18, 20} && a.interval !in iv
    ensures forall x :: x in {13, 15, 18, 20} && x !in iv ==> exists a :: a in c && a.interval == x
    ensures |c| <= 4
  {
    (if 13 !in iv then [Alteration(13, "b9")] else [])
    + (if 15 !in iv then [Alteration(15, "#9")] else [])
    + (if 18 !in iv then [Alteration(18, "#11")] else [])
    + (if 20 !in iv then [Alteration(20, "b13")] else [])
  }

  /** The alteration `Math.floor(pick * candidates.length)` selects. */
  function ChosenAlteration(iv: seq<int>, pick: real): (a: Alteration)
    requires AlterationCandidates(iv) != [] && UnitDraw(pick)
    ensures a.interval in {13, 15, 18, 20} && a.interval !in iv
  {
    var candidates := AlterationCandidates(iv);
    candidates[PickIndex(pick, |candidates|)]
  }

  /** `isDominant`: the type mentions "dom" or "7". */
  predicate IsDominant(chordType: string) {
    Includes(chordType, "dom") || Includes(chordType, "7")
  }

  /** `alterationProbability && Math.random() < alterationProbability`. */
  predicate AlterationRoll(probability: Option<real>, roll: real) {
    probability.Some? && probability.value != 0.0 && roll < probability.value
  }

  /** The `filter` that drops the natural ninth, eleventh and thirteenth. */
  function WithoutNaturalExtensions(iv: seq<int>): (r: seq<int>)
    ensures forall x :: x in r <==> x in iv && x !in {14, 17, 21}
    ensures |iv| > 0 && iv[0] !in {14, 17, 21} ==> |r| > 0 && r[0] == iv[0]
  {
    if iv == [] then []
    else
      var rest := WithoutNaturalExtensions(iv[1..]);
      assert forall x :: x in iv <==> x == iv[0] || x in iv[1..];
      if iv[0] in {14, 17, 21} then rest else [iv[0]] + rest
  }

  /** Filtering keeps a strictly rising sequence strictly rising. */
  lemma {:induction false} WithoutNaturalExtensionsAscending(iv: seq<int>)
    requires StrictlyAscending(iv)
    ensures StrictlyAscending(WithoutNaturalExtensions(iv))
  {
    if iv != [] {
      var rest := WithoutNaturalExtensions(iv[1..]);
      WithoutNaturalExtensionsAscending(iv[1..]);
      forall k | 0 <= k < |rest| ensures iv[0] < rest[k] {
        assert rest[k] in iv[1..];
      }
    }
  }

  /**
   * The alteration step: when the probability is truthy, the roll is below it
   * and the type counts as dominant, one missing alteration is chosen; the
   * natural 9, 11 and 13 are removed, the alteration added, the intervals
   * re-sorted and its suffix appended to the symbol.
   */
  function Alter(sh: Shape, chordType: string, probability: Option<real>, roll: real, pick: real): (r: Shape)
    requires IntervalShape(sh.intervals) && UnitDraw(pick)
    ensures IntervalShape(r.intervals)
  {
    if AlterationRoll(probability, roll) && IsDominant(chordType) then
      var candidates := AlterationCandidates(sh.intervals);
      if |candidates| > 0 then
        var a := ChosenAlteration(sh.intervals, pick);
        var kept := WithoutNaturalExtensions(sh.intervals);
        assert forall k :: 0 <= k < |kept| ==> kept[k] in sh.intervals;
        WithoutNaturalExtensionsAscending(sh.intervals);
        PushKeepsShape(kept, a.interval);
        Shape(SortAscending(kept + [a.interval]), sh.symbol + a.suffix)
      else sh
    else sh
  }

  // ---------------------------------------------------------------------
  // Pitches, notes and the chord
  // ---------------------------------------------------------------------

  /**
   * The MIDI number of the chord tone `interval` semitones above the root of
   * index `rootIndex` (-1 when the root is undefined): note name
   * `NOTES[(rootIndex + interval) % 12]` (JavaScript `%`) in octave
   * `4 + floor((rootIndex + interval) / 12)`, through `noteToMidi`, which
   * also receives the undefined name.
   */
  function ChordToneMidi(rootIndex: int, interval: int): int {
    NoteToMidi(NoteAt(TruncRem12(rootIndex + interval)), 4 + (rootIndex + interval) / 12)
  }

  /** The `intervals.map(...)` that turns intervals into MIDI numbers. */
  function ChordMidi(rootIndex: int, iv: seq<int>): (midi: seq<int>)
    ensures |midi| == |iv|
    ensures forall k :: 0 <= k < |iv| ==> midi[k] == ChordToneMidi(rootIndex, iv[k])
  {
    seq(|iv|, k requires 0 <= k < |iv| => ChordToneMidi(rootIndex, iv[k]))
  }

  /** The `notes` array: each pitch with its name from `getNoteName`. */
  function NotesOf(midi: seq<int>): (notes: seq<Note>)
    requires forall k :: 0 <= k < |midi| ==> midi[k] >= 0
    ensures |notes| == |midi|
    ensures forall k :: 0 <= k < |midi| ==> notes[k] == Note(GetNoteName(midi[k]), midi[k])
    ensures forall k :: 0 <= k < |midi| ==>
      notes[k].midi == midi[k] && notes[k].name in Notes && NoteIndex(notes[k].name) == midi[k] % 12
  {
    seq(|midi|, k requires 0 <= k < |midi| => Note(GetNoteName(midi[k]), midi[k]))
  }

  /** `notes.map(n => n.midi)`. */
  function MidiOfNotes(notes: seq<Note>): (midi: seq<int>)
    ensures |midi| == |notes|
    ensures forall k :: 0 <= k < |notes| ==> midi[k] == notes[k].midi
  {
    seq(|notes|, k requires 0 <= k < |notes| => notes[k].midi)
  }

  /** Reading the pitches back from the named notes gives the pitches that were named. */
  lemma NotesKeepPitches(midi: seq<int>)
    requires forall k :: 0 <= k < |midi| ==> midi[k] >= 0
    ensures MidiOfNotes(NotesOf(midi)) == midi
  {
    assert forall k :: 0 <= k < |midi| ==> MidiOfNotes(NotesOf(midi))[k] == midi[k];
  }

  /** `scaleNotes[degree - 1]`: `None` past the end of the scale. */
  function ChordRootOf(scaleNotes: seq<Option<string>>, degree: int): Option<string>
    requires degree >= 1
  {
    if degree <= |scaleNotes| then scaleNotes[degree - 1] else None
  }

  /** A possibly undefined root as the template string prints it. */
  function RootText(root: Option<string>): string {
    match root
    case Some(name) => name
    case None => "undefined"
  }

  /** The pitches before any inversion lie between 47 and 92 and rise strictly. */
  lemma ChordMidiRange(rootIndex: int, iv: seq<int>)
    requires -1 <= rootIndex < 12 && IntervalShape(iv)
    ensures forall k :: 0 <= k < |iv| ==> 47 <= ChordMidi(rootIndex, iv)[k] <= 92
    ensures StrictlyAscending(ChordMidi(rootIndex, iv))
  {
    forall k | 0 <= k < |iv| ensures ChordToneMidi(rootIndex, iv[k]) == ToneFormula(rootIndex, iv[k]) {
      ChordToneFormula(rootIndex, iv[k]);
    }
  }

  /**
   * The MIDI number a chord tone comes out at: `60 + rootIndex + interval`
   * for a known root; for an undefined root 47 for the root itself and
   * `59 + interval` above it.
   */
  function ToneFormula(rootIndex: int, interval: int): int {
    if rootIndex >= 0 then 60 + rootIndex + interval
    else if interval == 0 then 47
    else 59 + interval
  }

  /** Every placed tone follows `ToneFormula`. */
  lemma ChordMidiTones(rootIndex: int, iv: seq<int>)
    requires -1 <= rootIndex < 12 && IntervalShape(iv)
    ensures forall k :: 0 <= k < |iv| ==> ChordMidi(rootIndex, iv)[k] == ToneFormula(rootIndex, iv[k])
  {
    forall k | 0 <= k < |iv| ensures ChordMidi(rootIndex, iv)[k] == ToneFormula(rootIndex, iv[k]) {
      ChordToneFormula(rootIndex, iv[k]);
    }
  }

  lemma ChordToneFormula(rootIndex: int, interval: int)
    requires -1 <= rootIndex < 12 && 0 <= interval <= 21
    ensures ChordToneMidi(rootIndex, interval) == ToneFormula(rootIndex, interval)
  {
    var x := rootIndex + interval;
    if x < 0 {
      assert x == -1 && TruncRem12(x) == -1 && x / 12 == -1;
    } else if x < 12 {
      DivMod12(0, x);
      NoteIndexInverse();
    } else if x < 24 {
      DivMod12(1, x - 12);
      NoteIndexInverse();
    } else {
      DivMod12(2, x - 24);
      NoteIndexInverse();
    }
  }

  /**
   * `getChordFromScale(root, degree, scaleName, ...)`: the chord record the
   * source returns, stage by stage.
   */
  function ChordFromScale(root: string, degree: int, scaleName: string, opts: ChordOptions, draws: ChordDraws): (c: Chord)
    requires KnownScale(scaleName) && degree >= 1 && ValidChordDraws(draws)
    ensures c.quality == DeterminedChordType(opts.chordType, scaleName, degree)
    ensures c.root == ChordRootOf(GetScaleNotes(Some(root), scaleName), degree)
    ensures |c.notes| == |c.midi| > 0
    ensures (forall k :: 0 <= k < |c.midi| ==> c.midi[k] >= 35) && c.notes == NotesOf(c.midi)
    ensures Ascending(c.midi)
    ensures !Truthy(opts.inversion) ==> StrictlyAscending(c.midi)
  {
    AssembleChord(
      ChordRootOf(GetScaleNotes(Some(root), scaleName), degree),
      DeterminedChordType(opts.chordType, scaleName, degree),
      FinalShape(DeterminedChordType(opts.chordType, scaleName, degree), scaleName, degree, opts, draws),
      opts.inversion)
  }

  /** The returned record: pitches above the chord root, optionally inverted, named, and the symbol prefixed by the root. */
  function AssembleChord(chordRoot: Option<string>, quality: string, shape: Shape, inversion: Option<string>): (c: Chord)
    requires IntervalShape(shape.intervals)
    ensures c.root == chordRoot && c.quality == quality
    ensures c.symbol == RootText(chordRoot) + shape.symbol
    ensures c.midi == VoicedMidi(RootIndex(chordRoot), shape.intervals, inversion)
    ensures |c.notes| == |c.midi|
    ensures (forall k :: 0 <= k < |c.midi| ==> c.midi[k] >= 35) && c.notes == NotesOf(c.midi)
  {
    var midi := VoicedMidi(RootIndex(chordRoot), shape.intervals, inversion);
    var notes := NotesOf(midi);
    assert MidiOfNotes(notes) == midi;
    Chord(chordRoot, quality, RootText(chordRoot) + shape.symbol, notes, MidiOfNotes(notes))
  }

  /** Intervals and symbol after the base lookup, the extension step and the alteration step. */
  function FinalShape(chordType: string, scaleName: string, degree: int, opts: ChordOptions, draws: ChordDraws): (sh: Shape)
    requires degree >= 1 && ValidChordDraws(draws)
    ensures IntervalShape(sh.intervals)
  {
    Alter(
      Extend(BaseShape(chordType, DiatonicChordQuality(scaleName, degree)),
        ExtensionProbability(opts.extensionDensity), draws.extension, draws.extensionPick),
      chordType, opts.alterationProbability, draws.alteration, draws.alterationPick)
  }

  /** The pitches of the chord, inverted when an inversion type is given. */
  function VoicedMidi(rootIndex: int, iv: seq<int>, inversion: Option<string>): (midi: seq<int>)
    requires -1 <= rootIndex < 12 && IntervalShape(iv)
    ensures |midi| == |iv|
    ensures forall k :: 0 <= k < |midi| ==> midi[k] >= 35
    ensures Ascending(midi)
    ensures !Truthy(inversion) ==> midi == ChordMidi(rootIndex, iv) && StrictlyAscending(midi)
    ensures Truthy(inversion) ==> midi == Inversion(ChordMidi(rootIndex, iv), TagOf(inversion.value))
  {
    ChordMidiRange(rootIndex, iv);
    if Truthy(inversion) then
      InversionStaysAbove(ChordMidi(rootIndex, iv), TagOf(inversion.value), 47);
      Inversion(ChordMidi(rootIndex, iv), TagOf(inversion.value))
    else ChordMidi(rootIndex, iv)
  }

  // ---------------------------------------------------------------------
  // The source's steps
  // ---------------------------------------------------------------------

  /** Collects the extensions the chord lacks, as the source pushes them. */
  method ExtensionCandidatesSteps(intervals: seq<int>) returns (possible: seq<int>)
    ensures possible == ExtensionCandidates(intervals)
  {
    possible := [];
    if 14 !in intervals { possible := possible + [14]; }
    if 17 !in intervals { possible := possible + [17]; }
    if 21 !in intervals { possible := possible + [21]; }
  }

  /** The extension block: collect the missing extensions, push the chosen one, sort, rewrite the symbol. */
  method ExtendSteps(intervals: seq<int>, symbol: string, probability: real, roll: real, pick: real)
    returns (newIntervals: seq<int>, newSymbol: string)
    requires IntervalShape(intervals) && UnitDraw(pick)
    ensures Shape(newIntervals, newSymbol) == Extend(Shape(intervals, symbol), probability, roll, pick)
  {
    newIntervals, newSymbol := intervals, symbol;
    if roll < probability && |intervals| >= 4 {
      var possible := ExtensionCandidatesSteps(intervals);
      if |possible| > 0 {
        var chosen := possible[PickIndex(pick, |possible|)];
        newIntervals := newIntervals + [chosen];
        newIntervals := SortAscending(newIntervals);
        newSymbol := ExtensionSymbol(newSymbol, chosen);
      }
    }
  }

  /** Collects the alterations the chord lacks, as the source pushes them. */
  method AlterationCandidatesSteps(intervals: seq<int>) returns (possible: seq<Alteration>)
    ensures possible == AlterationCandidates(intervals)
  {
    possible := [];
    if 13 !in intervals { possible := possible + [Alteration(13, "b9")]; }
    if 15 !in intervals { possible := possible + [Alteration(15, "#9")]; }
    if 18 !in intervals { possible := possible + [Alteration(18, "#11")]; }
    if 20 !in intervals { possible := possible + [Alteration(20, "b13")]; }
  }

  /** The alteration block: collect the missing alterations, drop the natural 9/11/13, push, sort, append the suffix. */
  method AlterSteps(intervals: seq<int>, symbol: string, chordType: string, probability: Option<real>, roll: real, pick: real)
    returns (newIntervals: seq<int>, newSymbol: string)
    requires IntervalShape(intervals) && UnitDraw(pick)
    ensures Shape(newIntervals, newSymbol) == Alter(Shape(intervals, symbol), chordType, probability, roll, pick)
  {
    newIntervals, newSymbol := intervals, symbol;
    if AlterationRoll(probability, roll) && IsDominant(chordType) {
      var possible := AlterationCandidatesSteps(intervals);
      if |possible| > 0 {
        var chosen := possible[PickIndex(pick, |possible|)];
        newIntervals := WithoutNaturalExtensions(newIntervals);
        newIntervals := newIntervals + [chosen.interval];
        newIntervals := SortAscending(newIntervals);
        newSymbol := newSymbol + chosen.suffix;
      }
    }
  }

  /** The `switch` on the diatonic quality when no chord type is given. */
  method DefaultChordTypeSteps(diatonic: string) returns (chordType: string)
    ensures chordType == DefaultChordType(diatonic)
  {
    if diatonic == "major" {
      chordType := "maj7";
    } else if diatonic == "minor" {
      chordType := "min7";
    } else if diatonic == "dom7" {
      chordType := "dom7";
    } else if diatonic == "min7b5" {
      chordType := "min7b5";
    } else if diatonic == "dim7" {
      chordType := "dim7";
    } else {
      chordType := "triad";
    }
  }

  /** The interval lookup and the re-resolution of the literal type "triad". */
  method BaseShapeSteps(determinedChordType: string, diatonicTriadQuality: string) returns (intervals: seq<int>, symbol: string)
    ensures Shape(intervals, symbol) == BaseShape(determinedChordType, diatonicTriadQuality)
  {
    intervals := TableIntervals(determinedChordType);
    symbol := determinedChordType;
    if determinedChordType == "triad" {
      if diatonicTriadQuality == "minor" {
        intervals := [0, 3, 7];
        symbol := "m";
      } else if diatonicTriadQuality == "diminished" {
        intervals := [0, 3, 6];
        symbol := "dim";
      } else {
        symbol := "";
      }
    }
  }

  /**
   * `getChordFromScale(root, degree, scaleName, chordType, inversionType,
   * extensionDensity, alterationProbability)`, step by step.
   */
  method GetChordFromScale(root: string, degree: int, scaleName: string, opts: ChordOptions, draws: ChordDraws)
    returns (chord: Chord)
    requires KnownScale(scaleName) && degree >= 1 && ValidChordDraws(draws)
    ensures chord == ChordFromScale(root, degree, scaleName, opts, draws)
  {
    var scaleNotes := GetScaleNotes(Some(root), scaleName);
    var chordRoot := if degree <= |scaleNotes| then scaleNotes[degree - 1] else None;

    var determinedChordType: string;
    if Truthy(opts.chordType) {
      determinedChordType := opts.chordType.value;
    } else {
      determinedChordType := DefaultChordTypeSteps(DiatonicChordQuality(scaleName, degree));
    }

    assert determinedChordType == DeterminedChordType(opts.chordType, scaleName, degree);
    var intervals, symbol := ShapeSteps(determinedChordType, scaleName, degree, opts, draws);
    chord := AssembleSteps(chordRoot, determinedChordType, intervals, symbol, opts.inversion);
  }

  /** The base lookup, the extension step and the alteration step, in that order. */
  method ShapeSteps(determinedChordType: string, scaleName: string, degree: int, opts: ChordOptions, draws: ChordDraws)
    returns (intervals: seq<int>, symbol: string)
    requires degree >= 1 && ValidChordDraws(draws)
    ensures IntervalShape(intervals)
    ensures Shape(intervals, symbol) == FinalShape(determinedChordType, scaleName, degree, opts, draws)
  {
    intervals, symbol := BaseShapeSteps(determinedChordType, DiatonicChordQuality(scaleName, degree));
    intervals, symbol := ExtendSteps(intervals, symbol, ExtensionProbability(opts.extensionDensity), draws.extension, draws.extensionPick);
    intervals, symbol := AlterSteps(intervals, symbol, determinedChordType, opts.alterationProbability, draws.alteration, draws.alterationPick);
  }

  /** The last steps: intervals to MIDI numbers, the optional inversion, the note names, the record. */
  method AssembleSteps(chordRoot: Option<string>, quality: string, intervals: seq<int>, symbol: string, inversionType: Option<string>)
    returns (chord: Chord)
    requires IntervalShape(intervals)
    ensures chord == AssembleChord(chordRoot, quality, Shape(intervals, symbol), inversionType)
  {
    var chordRootIndex := RootIndex(chordRoot);
    ChordMidiRange(chordRootIndex, intervals);
    var midiNotes := ChordMidi(chordRootIndex, intervals);
    if Truthy(inversionType) {
      midiNotes := ApplyInversion(midiNotes, inversionType.value);
    }
    assert midiNotes == VoicedMidi(chordRootIndex, intervals, inversionType);
    var notes := NotesOf(midiNotes);
    chord := Chord(chordRoot, quality, RootText(chordRoot) + symbol, notes, MidiOfNotes(notes));
  }

  // ---------------------------------------------------------------------
  // Properties
  // ---------------------------------------------------------------------

  /**
   * With a root from the alphabet, a degree inside the scale and no
   * inversion, the chord is in root position on its own root.
   */
  lemma RootPositionPitches(root: string, degree: int, scaleName: string, opts: ChordOptions, draws: ChordDraws)
    requires KnownScale(scaleName) && ValidChordDraws(draws)
    requires root in Notes && 1 <= degree <= |ScaleIntervals(scaleName)|
    requires !Truthy(opts.inversion)
    ensures var c := ChordFromScale(root, degree, scaleName, opts, draws);
      var quality := DeterminedChordType(opts.chordType, scaleName, degree);
      c.root.Some? && c.root.value in Notes
      && RootPosition(c, c.root.value, FinalShape(quality, scaleName, degree, opts, draws).intervals)
  {
    var names := GetScaleNotes(Some(root), scaleName);
    assert RootIndex(Some(root)) >= 0;
    var chordRoot := ChordRootOf(names, degree);
    assert chordRoot == names[degree - 1];
    var quality := DeterminedChordType(opts.chordType, scaleName, degree);
    var shape := FinalShape(quality, scaleName, degree, opts, draws);
    AssembledRootPosition(chordRoot, quality, shape, opts.inversion);
    assert ChordFromScale(root, degree, scaleName, opts, draws) == AssembleChord(chordRoot, quality, shape, opts.inversion);
  }

  /**
   * Pitch k of `c` is `60 + NOTES.indexOf(rootName) + iv[k]`: the chord
   * starts on its root in the octave of middle C, rises strictly, and its
   * first note is named by the root.
   */
  predicate RootPosition(c: Chord, rootName: string, iv: seq<int>) {
    |c.midi| == |iv| > 0 && |c.notes| > 0
    && (forall k :: 0 <= k < |iv| ==> c.midi[k] == 60 + NoteIndex(rootName) + iv[k])
    && c.midi[0] == 60 + NoteIndex(rootName)
    && c.notes[0].name == rootName
    && StrictlyAscending(c.midi)
  }

  lemma AssembledRootPosition(chordRoot: Option<string>, quality: string, shape: Shape, inversion: Option<string>)
    requires IntervalShape(shape.intervals)
    requires chordRoot.Some? && chordRoot.value in Notes && !Truthy(inversion)
    ensures RootPosition(AssembleChord(chordRoot, quality, shape, inversion), chordRoot.value, shape.intervals)
  {
    var c := AssembleChord(chordRoot, quality, shape, inversion);
    var iv := shape.intervals;
    var ri := RootIndex(chordRoot);
    assert c.midi == ChordMidi(ri, iv);
    ChordMidiTones(ri, iv);
    ChordMidiRange(ri, iv);
    DivMod12(5, ri);
    assert NoteIndex(c.notes[0].name) == ri;
  }

  /**
   * A degree past the end of a short scale (pentatonic, blues) leaves the
   * root undefined: the symbol starts with "undefined" and, uninverted, the
   * chord's root tone is MIDI 47 and every other tone `59 + interval`.
   */
  lemma UndefinedRootPitches(root: string, degree: int, scaleName: string, opts: ChordOptions, draws: ChordDraws)
    requires KnownScale(scaleName) && ValidChordDraws(draws)
    requires degree > |ScaleIntervals(scaleName)|
    requires !Truthy(opts.inversion)
    ensures var c := ChordFromScale(root, degree, scaleName, opts, draws);
      var iv := FinalShape(c.quality, scaleName, degree, opts, draws).intervals;
      c.root == None && c.symbol[..9] == "undefined"
      && c.midi[0] == 47 && (forall k :: 1 <= k < |iv| ==> c.midi[k] == 59 + iv[k])
  {
    var c := ChordFromScale(root, degree, scaleName, opts, draws);
    var iv := FinalShape(c.quality, scaleName, degree, opts, draws).intervals;
    assert c.midi == ChordMidi(-1, iv);
    forall k | 0 <= k < |iv| ensures c.midi[k] == ToneFormula(-1, iv[k]) {
      ChordToneFormula(-1, iv[k]);
    }
    assert iv[0] == 0;
  }

  /** An inverted chord is the inversion of its root-position pitches and sounds the same pitch classes. */
  lemma InvertedChordPitchClasses(root: string, degree: int, scaleName: string, opts: ChordOptions, draws: ChordDraws)
    requires KnownScale(scaleName) && degree >= 1 && ValidChordDraws(draws)
    requires Truthy(opts.inversion)
    ensures var c := ChordFromScale(root, degree, scaleName, opts, draws);
      var rootPosition := ChordMidi(RootIndex(c.root), FinalShape(c.quality, scaleName, degree, opts, draws).intervals);
      c.midi == Inversion(rootPosition, TagOf(opts.inversion.value))
      && SamePitchClasses(c.midi, rootPosition)
  {
    var c := ChordFromScale(root, degree, scaleName, opts, draws);
    var rootPosition := ChordMidi(RootIndex(c.root), FinalShape(c.quality, scaleName, degree, opts, draws).intervals);
    InversionKeepsPitchClasses(rootPosition, TagOf(opts.inversion.value));
  }

  /** The symbol is the root's name (or "undefined") followed by the suffix the steps built. */
  lemma SymbolStartsWithRoot(root: string, degree: int, scaleName: string, opts: ChordOptions, draws: ChordDraws)
    requires KnownScale(scaleName) && degree >= 1 && ValidChordDraws(draws)
    ensures var c := ChordFromScale(root, degree, scaleName, opts, draws);
      c.symbol == RootText(c.root) + FinalShape(c.quality, scaleName, degree, opts, draws).symbol
  {
  }

  /** When the extension step changes the chord. */
  predicate ExtensionFires(sh: Shape, probability: real, roll: real) {
    roll < probability && |sh.intervals| >= 4 && ExtensionCandidates(sh.intervals) != []
  }

  /**
   * The extension step changes the chord only when the roll succeeds, the
   * chord has a seventh and an extension is missing; then it adds exactly one
   * of 14, 17, 21 that was absent and rewrites the symbol for it.
   */
  lemma ExtensionAddsOne(sh: Shape, probability: real, roll: real, pick: real)
    requires IntervalShape(sh.intervals) && UnitDraw(pick)
    ensures !ExtensionFires(sh, probability, roll) ==> Extend(sh, probability, roll, pick) == sh
    ensures ExtensionFires(sh, probability, roll) ==>
      var e := ChosenExtension(sh.intervals, pick);
      var r := Extend(sh, probability, roll, pick);
      e in {14, 17, 21} && e !in sh.intervals
      && multiset(r.intervals) == multiset(sh.intervals) + multiset{e}
      && r.symbol == ExtensionSymbol(sh.symbol, e)
  {
    if ExtensionFires(sh, probability, roll) {
      PushKeepsShape(sh.intervals, ChosenExtension(sh.intervals, pick));
    }
  }

  /** Without a density, with "none" or with a name the table lacks, no extension is ever added. */
  lemma NoDensityNoExtension(density: Option<string>, sh: Shape, roll: real)
    requires UnitDraw(roll)
    requires !Truthy(density) || ExtensionDensityNamed(density.value).None? || density.value == "none"
    ensures !ExtensionFires(sh, ExtensionProbability(density), roll)
  {
  }

  /** Density "all" adds an extension to every chord with a seventh that lacks one. */
  lemma DensityAllAlwaysExtends(sh: Shape, roll: real)
    requires UnitDraw(roll) && |sh.intervals| >= 4 && ExtensionCandidates(sh.intervals) != []
    ensures ExtensionFires(sh, ExtensionProbability(Some("all")), roll)
  {
  }

  /** When the alteration step changes the chord. */
  predicate AlterationFires(sh: Shape, chordType: string, probability: Option<real>, roll: real) {
    AlterationRoll(probability, roll) && IsDominant(chordType) && AlterationCandidates(sh.intervals) != []
  }

  /**
   * The alteration step changes the chord only when the probability is
   * truthy, the roll succeeds and the type counts as dominant; then the
   * natural 9, 11 and 13 are gone, exactly one absent alteration is added
   * and its suffix appended to the symbol.
   */
  lemma AlterationReplacesNaturals(sh: Shape, chordType: string, probability: Option<real>, roll: real, pick: real)
    requires IntervalShape(sh.intervals) && UnitDraw(pick)
    ensures !AlterationFires(sh, chordType, probability, roll) ==> Alter(sh, chordType, probability, roll, pick) == sh
    ensures AlterationFires(sh, chordType, probability, roll) ==>
      var a := ChosenAlteration(sh.intervals, pick);
      var r := Alter(sh, chordType, probability, roll, pick);
      a.interval in {13, 15, 18, 20} && a.interval !in sh.intervals
      && (forall x :: x in r.intervals <==> (x in sh.intervals && x !in {14, 17, 21}) || x == a.interval)
      && r.symbol == sh.symbol + a.suffix
  {
    if AlterationFires(sh, chordType, probability, roll) {
      var a := ChosenAlteration(sh.intervals, pick);
      var kept := WithoutNaturalExtensions(sh.intervals);
      assert forall k :: 0 <= k < |kept| ==> kept[k] in sh.intervals;
      WithoutNaturalExtensionsAscending(sh.intervals);
      PushKeepsShape(kept, a.interval);
      var r := SortAscending(kept + [a.interval]);
      forall x ensures x in r <==> x in kept || x == a.interval {
        assert x in r <==> x in multiset(kept + [a.interval]);
      }
    }
  }

  /** Which types the alteration step treats as dominant: any with a "7" qualifies, the ninth and thirteenth chords and "alt" do not. */
  lemma DominantTest()
    ensures IsDominant("dom7") && IsDominant("maj7") && IsDominant("min7") && IsDominant("min7b5") && IsDominant("dim7")
  {
    assert IsPrefix("7", "7");
    assert Includes("maj7"[3..], "7") && Includes("min7"[3..], "7") && Includes("dim7"[3..], "7");
    assert Includes("min7b5"[3..], "7");
  }

  /** Extended and altered types without "7" or "dom", and the plain "triad", are not dominant. */
  lemma NonDominantTest()
    ensures !IsDominant("9") && !IsDominant("13") && !IsDominant("alt") && !IsDominant("triad")
  {
    MissingCharExcludes("9", "dom", 'o');
    MissingCharExcludes("9", "7", '7');
    MissingCharExcludes("13", "dom", 'o');
    MissingCharExcludes("13", "7", '7');
    MissingCharExcludes("alt", "dom", 'o');
    MissingCharExcludes("alt", "7", '7');
    MissingCharExcludes("triad", "dom", 'o');
    MissingCharExcludes("triad", "7", '7');
  }

  /** A type the table lacks (the raw qualities "major", "minor", "diminished", or "dom9") sounds a major triad and keeps its name as symbol. */
  lemma UnknownTypeIsMajorTriad(chordType: string, diatonic: string)
    requires ChordTypeIntervals(chordType).None?
    ensures BaseShape(chordType, diatonic) == Shape([0, 4, 7], chordType)
  {
  }

  lemma RawQualitiesNotInTable()
    ensures ChordTypeIntervals("major").None? && ChordTypeIntervals("minor").None?
    ensures ChordTypeIntervals("diminished").None? && ChordTypeIntervals("dom9").None?
  {
  }

  /**
   * The chord of a degree when no type is given, before extensions, by the
   * degree's diatonic quality: "maj7" and "min7" are not in the switch, so
   * they become the literal "triad" and sound a major triad (so a D major
   * triad on the ii of C major).
   */
  lemma SeventhQualitiesDefaultToTriad()
    ensures DefaultChordType("maj7") == "triad" && DefaultChordType("min7") == "triad"
    ensures BaseShape("triad", "maj7") == Shape([0, 4, 7], "") && BaseShape("triad", "min7") == Shape([0, 4, 7], "")
  {
  }

  /** The qualities "dom7" and "min7b5" keep their own type: a dominant and a half-diminished seventh. */
  lemma SeventhQualitiesKeepType()
    ensures DefaultChordType("dom7") == "dom7" && BaseShape("dom7", "dom7") == Shape([0, 4, 7, 10], "dom7")
    ensures DefaultChordType("min7b5") == "min7b5" && BaseShape("min7b5", "min7b5") == Shape([0, 3, 6, 10], "min7b5")
  {
  }

  /**
   * A truthy chord type is used as given. Without one the default is always a
   * key of the interval table; it is the literal "triad" exactly for the
   * qualities "maj7", "min7" and "diminished", which no case of the `switch`
   * names. On an unknown scale the quality is "major" and the default
   * "maj7"; `getChordFromScale` never gets that far on such a scale, since
   * `getScaleNotes` has already thrown, so that clause is about
   * `DeterminedChordType` alone.
   */
  lemma DeterminedChordTypeCases(chordType: Option<string>, scaleName: string, degree: int)
    requires degree >= 1
    ensures Truthy(chordType) ==> DeterminedChordType(chordType, scaleName, degree) == chordType.value
    ensures !Truthy(chordType) ==> ChordTypeIntervals(DeterminedChordType(chordType, scaleName, degree)).Some?
    ensures !Truthy(chordType) ==>
      (DeterminedChordType(chordType, scaleName, degree) == "triad"
       <==> DiatonicChordQuality(scaleName, degree) in ["maj7", "min7", "diminished"])
    ensures !Truthy(chordType) && !KnownScale(scaleName) ==> DeterminedChordType(chordType, scaleName, degree) == "maj7"
  {
    DefaultChordTypeOfQuality(DiatonicChordQuality(scaleName, degree));
  }

  /** The default type for each of the eight qualities: a table key, "triad" for the three the `switch` does not name. */
  lemma DefaultChordTypeOfQuality(q: string)
    requires q in DiatonicQualities
    ensures ChordTypeIntervals(DefaultChordType(q)).Some?
    ensures DefaultChordType(q) == "triad" <==> q == "maj7" || q == "min7" || q == "diminished"
  {
    if q == "maj7" || q == "min7" || q == "diminished" {
      assert DefaultChordType(q) == "triad";
    } else if q == "major" {
      assert DefaultChordType(q) == "maj7";
    } else if q == "minor" {
      assert DefaultChordType(q) == "min7";
    } else {
      assert DefaultChordType(q) == q;
    }
  }

  /**
   * The chord root is undefined exactly for a degree past the end of the
   * scale, or for degree 1 when the key is not a note name; otherwise it is a
   * note name.
   */
  lemma ChordRootDefined(root: Option<string>, scaleName: string, degree: int)
    requires KnownScale(scaleName) && degree >= 1
    ensures var r := ChordRootOf(GetScaleNotes(root, scaleName), degree);
      && (r.None? <==> degree > |ScaleIntervals(scaleName)| || (degree == 1 && RootIndex(root) < 0))
      && (r.Some? ==> r.value in Notes)
  {
    var iv := ScaleIntervals(scaleName);
    if RootIndex(root) < 0 {
      ScaleNotesWithoutRoot(iv);
      assert GetScaleNotes(root, scaleName) == ScaleNotesFrom(-1, iv);
    }
  }

  /** A ninth replaces the first "7" of the symbol. */
  lemma DominantNinthSymbol()
    ensures ExtensionSymbol("dom7", 14) == "dom9"
  {
    SingleCharAt("dom7", '7', 3);
  }

  /** An eleventh replaces the first "7"; the "9" it then looks for is absent. */
  lemma DominantEleventhSymbol()
    ensures ExtensionSymbol("dom7", 17) == "dom11"
  {
    SingleCharAt("dom7", '7', 3);
    assert ReplaceFirst("dom7", "7", "11") == "dom11";
    MissingCharExcludes("dom11", "9", '9');
  }

  /** A thirteenth replaces the first "7"; no "9" or "11" is left to replace. */
  lemma MajorThirteenthSymbol()
    ensures ExtensionSymbol("maj7", 21) == "maj13"
  {
    SingleCharAt("maj7", '7', 3);
    assert ReplaceFirst("maj7", "7", "13") == "maj13";
    MissingCharExcludes("maj13", "9", '9');
    forall j | 0 <= j <= 3 ensures !OccursAt("maj13", "11", j) {
      assert "maj13"[j..j + 2] == ["maj13"[j], "maj13"[j + 1]];
    }
    NoOccurrenceExcludes("maj13", "11");
  }

  /** Without a "7", an eleventh replaces the "9" of a ninth chord's symbol. */
  lemma NinthToEleventhSymbol()
    ensures ExtensionSymbol("9", 17) == "11"
  {
    MissingCharExcludes("9", "7", '7');
    SingleCharAt("9", '9', 0);
  }

  /** The one-character pattern `[c]` first occurs where `c` first appears. */
  lemma SingleCharAt(s: string, c: char, i: int)
    requires 0 <= i < |s| && s[i] == c && forall j :: 0 <= j < i ==> s[j] != c
    ensures IndexOfSubstring(s, [c]) == i && Includes(s, [c])
  {
    assert s[i..i + 1] == [c];
    forall j | 0 <= j < i ensures !OccursAt(s, [c], j) {
      assert s[j..j + 1] == [s[j]];
    }
    FirstOccurrenceIsIndex(s, [c], i);
  }

  /** A symbol without "7", "9" or "11" is left as it is by every extension. */
  lemma ExtensionSymbolKeepsOthers(symbol: string, extension: int)
    requires !Includes(symbol, "7") && !Includes(symbol, "9") && !Includes(symbol, "11")
    ensures ExtensionSymbol(symbol, extension) == symbol
  {
  }

  /**
   * The alteration roll never succeeds without a positive probability and
   * always succeeds with a probability of 1 or more.
   */
  lemma AlterationRollCases(probability: Option<real>, roll: real)
    requires UnitDraw(roll)
    ensures (probability.None? || probability.value <= 0.0) ==> !AlterationRoll(probability, roll)
    ensures probability.Some? && probability.value >= 1.0 ==> AlterationRoll(probability, roll)
  {
  }
}

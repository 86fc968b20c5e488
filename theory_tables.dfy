/**
 * The fixed data of the music-theory engine (note alphabet, scales, genres,
 * chord-type intervals, extension densities) and the two note helpers
 * `noteToMidi` and `getNoteName`.
 */
module TheoryTables {
  import opened Wrappers
  import opened MusicTypes
  import opened Sorting
  import opened JsBuiltins

  /** The twelve pitch-class names, index = semitones above C. */
  const Notes: seq<string> := ["C", "C#", "D", "D#", "E", "F", "F#", "G", "G#", "A", "A#", "B"]

  lemma NotesDistinct()
    ensures |Notes| == 12
    ensures forall i, j :: 0 <= i < j < 12 ==> Notes[i] != Notes[j]
  {
  }

  /** `NOTES.indexOf(name)`: -1 for a name outside the alphabet. */
  function NoteIndex(name: string): (i: int)
    ensures -1 <= i < 12
    ensures i >= 0 <==> name in Notes
    ensures i >= 0 ==> Notes[i] == name
  {
    IndexOf(Notes, name)
  }

  /** The index of the k-th name is k: the alphabet has no repeated name. */
  lemma NoteIndexInverse()
    ensures forall k :: 0 <= k < 12 ==> NoteIndex(Notes[k]) == k
  {
    NotesDistinct();
  }

  /** The k-th name is in the alphabet at index k. */
  lemma NoteIndexAt(k: int)
    requires 0 <= k < 12
    ensures Notes[k] in Notes && NoteIndex(Notes[k]) == k
  {
    NoteIndexInverse();
  }

  /** Euclidean division by 12 recovers quotient and remainder. */
  lemma DivMod12(q: int, r: int)
    requires 0 <= r < 12
    ensures (q * 12 + r) / 12 == q && (q * 12 + r) % 12 == r
  {
    var m := q * 12 + r;
    var d := m / 12 - q;
    assert 12 * d == r - m % 12;
  }

  /**
   * `noteToMidi(note, octave)`: C4 is 60. The argument may be `undefined`
   * (`None`) or a string outside the alphabet; `indexOf` then gives -1 and
   * the result is the B an octave lower.
   */
  function NoteToMidi(note: Option<string>, octave: int): (m: int)
    ensures note.Some? && note.value in Notes ==> m % 12 == NoteIndex(note.value) && m / 12 == octave + 1
    ensures !(note.Some? && note.value in Notes) ==> m % 12 == 11 && m / 12 == octave
  {
    var index := if note.Some? then NoteIndex(note.value) else -1;
    DivMod12(octave + 1, if index >= 0 then index else 0);
    DivMod12(octave, 11);
    (octave + 1) * 12 + index
  }

  /** `getNoteName(midi)` for a non-negative MIDI number. */
  function GetNoteName(midi: int): (name: string)
    requires midi >= 0
    ensures name in Notes
    ensures NoteIndex(name) == midi % 12
  {
    NoteIndexInverse();
    Notes[midi % 12]
  }

  /** Naming the MIDI number of a note in any octave from -1 up gives the note back. */
  lemma NoteNameRoundTrip(note: string, octave: int)
    requires note in Notes && octave >= -1
    ensures GetNoteName(NoteToMidi(Some(note), octave)) == note
  {
  }

  /** The eight keys of the `SCALES` table. */
  datatype ScaleTag = MajorScale | NaturalMinor | Dorian | Mixolydian | Pentatonic | Blues | HarmonicMinor | MelodicMinor

  const ScaleKeys: seq<(string, ScaleTag)> := [
    ("major", MajorScale), ("minor", NaturalMinor), ("dorian", Dorian), ("mixolydian", Mixolydian),
    ("pentatonic", Pentatonic), ("blues", Blues), ("harmonic_minor", HarmonicMinor), ("melodic_minor", MelodicMinor)]

  function ScaleTagOf(name: string): Option<ScaleTag> {
    KeyLookup(ScaleKeys, name)
  }

  /** The `SCALES` entry of each key. */
  function ScaleOf(tag: ScaleTag): Scale {
    match tag
    case MajorScale => Scale("Major", [0, 2, 4, 5, 7, 9, 11])
    case NaturalMinor => Scale("Natural Minor", [0, 2, 3, 5, 7, 8, 10])
    case Dorian => Scale("Dorian", [0, 2, 3, 5, 7, 9, 10])
    case Mixolydian => Scale("Mixolydian", [0, 2, 4, 5, 7, 9, 10])
    case Pentatonic => Scale("Pentatonic", [0, 2, 4, 7, 9])
    case Blues => Scale("Blues", [0, 3, 5, 6, 7, 10])
    case HarmonicMinor => Scale("Harmonic Minor", [0, 2, 3, 5, 7, 8, 11])
    case MelodicMinor => Scale("Melodic Minor", [0, 2, 3, 5, 7, 9, 11])
  }

  predicate KnownScale(name: string) {
    ScaleTagOf(name).Some?
  }

  /** Every scale of the table has five to seven offsets from 0, strictly ascending, within one octave. */
  lemma ScaleTableWellFormed(tag: ScaleTag)
    ensures var iv := ScaleOf(tag).intervals;
      5 <= |iv| <= 7 && iv[0] == 0 && StrictlyAscending(iv) && forall k :: 0 <= k < |iv| ==> 0 <= iv[k] <= 11
  {
  }

  /** The keys the proofs name resolve to their entries. */
  lemma ScaleTagOfNames()
    ensures ScaleTagOf("major") == Some(MajorScale)
    ensures ScaleTagOf("harmonic_minor") == Some(HarmonicMinor)
  {
  }

  /** The semitone offsets of a scale in the table. */
  function ScaleIntervals(name: string): (iv: seq<int>)
    requires KnownScale(name)
    ensures 5 <= |iv| <= 7 && iv[0] == 0
    ensures StrictlyAscending(iv)
    ensures forall k :: 0 <= k < |iv| ==> 0 <= iv[k] <= 11
  {
    var tag := ScaleTagOf(name).value;
    ScaleTableWellFormed(tag);
    ScaleOf(tag).intervals
  }

  /** The five keys of the `GENRES` table. */
  datatype GenreTag = Soul | NeoSoul | Rnb | Jazz | Fusion

  function GenreTagOf(name: string): Option<GenreTag> {
    match name
    case "soul" => Some(Soul)
    case "neosoul" => Some(NeoSoul)
    case "rnb" => Some(Rnb)
    case "jazz" => Some(Jazz)
    case "fusion" => Some(Fusion)
    case _ => None
  }

  /** The `GENRES` entry of each key. */
  function GenreOf(tag: GenreTag): Genre {
    match tag
    case Soul => Genre("Soul",
      [[1, 6, 4, 5], [1, 4, 5, 1], [1, 3, 6, 4], [6, 4, 1, 5], [1, 5, 6, 4, 2, 5, 1], [2, 5, 1, 4, 7, 3, 6]],
      ["maj7", "min7", "dom7", "9", "maj11", "min11"],
      ["9", "11", "13", "sus2", "sus4"])
    case NeoSoul => Genre("Neo Soul",
      [[1, 7, 6, 2], [1, 5, 6, 3], [2, 5, 1, 4], [6, 2, 5, 1], [1, 3, 4, 5, 6, 2, 5, 1], [4, 1, 3, 6, 2, 5, 1]],
      ["maj9", "min9", "dom9", "13", "min11", "maj13", "min13"],
      ["add9", "6/9", "maj13", "min13", "sus2"])
    case Rnb => Genre("R&B",
      [[1, 5, 6, 4], [6, 4, 1, 5], [1, 6, 2, 5], [4, 5, 1, 6], [1, 4, 6, 5, 1], [6, 5, 4, 3, 2, 5, 1]],
      ["maj7", "min7", "9", "6/9", "add9", "sus4"],
      ["add9", "maj9", "min9", "sus4"])
    case Jazz => Genre("Jazz",
      [[2, 5, 1, 6], [1, 6, 2, 5], [3, 6, 2, 5], [1, 4, 7, 3], [1, 2, 3, 4, 5, 6, 7], [1, 4, 2, 5, 3, 6, 1]],
      ["maj7", "min7", "dom7", "min7b5", "dim7", "alt", "#11", "b13"],
      ["9", "11", "13", "alt", "sus4"])
    case Fusion => Genre("Fusion",
      [[1, 7, 6, 5], [2, 7, 1, 4], [1, 3, 5, 7], [6, 7, 1, 2], [1, 5, 2, 6, 3, 7, 4], [1, 4, 5, 6, 7, 1]],
      ["maj7", "min7", "dom7", "9", "11", "13", "sus2", "#11", "b13"],
      ["add9", "#11", "b13", "sus2", "sus4"])
  }

  predicate KnownGenre(name: string) {
    GenreTagOf(name).Some?
  }

  /** Six degree patterns of four to eight degrees, each in 1..7, and no empty chord-type name. */
  predicate WellFormedGenre(g: Genre) {
    |g.patterns| == 6
    && (forall i :: 0 <= i < 6 ==> PatternShape(g.patterns[i]))
    && (forall i :: 0 <= i < |g.chordTypes| ==> |g.chordTypes[i]| > 0)
  }

  /** Four to eight degrees, each in 1..7. */
  predicate PatternShape(p: seq<int>) {
    4 <= |p| <= 8 && forall j :: 0 <= j < |p| ==> 1 <= p[j] <= 7
  }

  /** Every genre of the table is well formed. */
  lemma GenreTableWellFormed(tag: GenreTag)
    ensures WellFormedGenre(GenreOf(tag))
  {
    match tag
    case Soul => SoulWellFormed();
    case NeoSoul => NeoSoulWellFormed();
    case Rnb => RnbWellFormed();
    case Jazz => JazzWellFormed();
    case Fusion => FusionWellFormed();
  }

  lemma SoulWellFormed() ensures WellFormedGenre(GenreOf(Soul)) {}
  lemma NeoSoulWellFormed() ensures WellFormedGenre(GenreOf(NeoSoul)) {}
  lemma RnbWellFormed() ensures WellFormedGenre(GenreOf(Rnb)) {}
  lemma JazzWellFormed() ensures WellFormedGenre(GenreOf(Jazz)) {}
  lemma FusionWellFormed() ensures WellFormedGenre(GenreOf(Fusion)) {}

  /** The chord-type interval table `baseChordIntervals`; `None` for a type it does not hold. */
  function ChordTypeIntervals(chordType: string): (r: Option<seq<int>>)
    ensures r.Some? ==> 3 <= |r.value| <= 7 && r.value[0] == 0 && r.value[|r.value| - 1] <= 21 && Rising(r.value)
  {
    match chordType
    case "maj7" => Some([0, 4, 7, 11])
    case "min7" => Some([0, 3, 7, 10])
    case "dom7" => Some([0, 4, 7, 10])
    case "9" => Some([0, 4, 7, 10, 14])
    case "maj9" => Some([0, 4, 7, 11, 14])
    case "min9" => Some([0, 3, 7, 10, 14])
    case "11" => Some([0, 4, 7, 10, 14, 17])
    case "13" => Some([0, 4, 7, 10, 14, 17, 21])
    case "maj11" => Some([0, 4, 7, 11, 14, 17])
    case "min11" => Some([0, 3, 7, 10, 14, 17])
    case "maj13" => Some([0, 4, 7, 11, 14, 17, 21])
    case "min13" => Some([0, 3, 7, 10, 14, 17, 21])
    case "alt" => Some([0, 4, 8, 10, 13, 16])
    case "sus2" => Some([0, 2, 7])
    case "sus4" => Some([0, 5, 7])
    case "add9" => Some([0, 4, 7, 14])
    case "6/9" => Some([0, 4, 7, 9, 14])
    case "#11" => Some([0, 4, 7, 10, 14, 18])
    case "b13" => Some([0, 4, 7, 10, 14, 20])
    case "min7b5" => Some([0, 3, 6, 10])
    case "dim7" => Some([0, 3, 6, 9])
    case "triad" => Some([0, 4, 7])
    case _ => None
  }

  /** The `EXTENSION_DENSITIES` table; `None` for a tag it does not hold. */
  function ExtensionDensityNamed(tag: string): (r: Option<ExtensionDensity>)
    ensures r.Some? ==> 0.0 <= r.value.probability <= 1.0
  {
    match tag
    case "none" => Some(ExtensionDensity("None", 0.0))
    case "some" => Some(ExtensionDensity("Some", 0.3))
    case "lots" => Some(ExtensionDensity("Lots", 0.6))
    case "all" => Some(ExtensionDensity("All", 1.0))
    case _ => None
  }
}

/**
 * The record shapes of the generator: a note, a chord, a progression, a
 * scale and a genre. A note's derived `frequency` is not carried.
 */
module MusicTypes {
  import opened Wrappers

  /** One sounding pitch: its pitch-class name and its MIDI number. */
  datatype Note = Note(name: string, midi: int)

  /**
   * A built chord; `midi` lists the pitches of `notes` in the same order.
   * `root` is `None` where the source leaves it `undefined` (a degree past
   * the end of a short scale).
   */
  datatype Chord = Chord(root: Option<string>, quality: string, symbol: string, notes: seq<Note>, midi: seq<int>)

  /** What the exporter receives; `tempo` is in beats per minute. */
  datatype ChordProgression = ChordProgression(
    chords: seq<Chord>, key: string, scale: string, genre: string, tempo: int, voicing: Option<string>)

  /** A scale: semitone offsets of its degrees from the root. */
  datatype Scale = Scale(name: string, intervals: seq<int>)

  /** A genre: its degree patterns, its preferred chord types and extension tags. */
  datatype Genre = Genre(name: string, patterns: seq<seq<int>>, chordTypes: seq<string>, extensions: seq<string>)

  /** One row of the extension-density table. */
  datatype ExtensionDensity = ExtensionDensity(name: string, probability: real)
}

# chordZ core in Dafny

A Dafny model of the music-theory engine and the MIDI writer of chordZ, a
browser chord-progression generator.

- **Theory tables.** The twelve-note alphabet (`NOTES`), the eight scales and
  the five genres are modelled with their exact data. So are the table of
  chord-type intervals and the extension densities.
- **Pitch helpers.** `noteToMidi`, `getNoteName`, `getChordName`,
  `getScaleNotes` and the diatonic quality of a scale degree
  (`getDiatonicChordQuality`).
- **Voicings.** `applyInversion` (first, second and third inversion, drop-2,
  and the unchanged default).
- **Chord building.** `getChordFromScale`: a chord type is resolved, its
  intervals are looked up, an extension and an alteration may be added, the
  tones are placed above the chord root and may be inverted.
- **Progressions.** `generateProgression` picks a genre pattern and a chord
  type for every degree.
- **Voice leading.** `applyVoiceLeading` revoices each chord as the cheapest
  of twelve candidates.
- **Melody.** `generateMelody` picks one in-scale chord tone per chord.
- **MIDI writer.** `exportToMidi` writes a Standard MIDI File 1.0 as bytes,
  with delta times as variable-length quantities.

Every call to `Math.random()` becomes a parameter: a `real` draw `u` with
`0 <= u < 1` (module `Draws`). A draw `u` against a probability `p` succeeds
when `u < p`, and `floor(u * n)` picks an index below `n`. JavaScript's
semantics are written out wherever the model depends on them:

- `%` truncates toward zero (`TruncRem12`).
- A missing key of a record reads as `undefined` (`KeyLookup`, `Option`).
- `undefined` and `""` are falsy (`Truthy`).
- `Array.prototype.sort` with a numeric comparator is `SortAscending`.
- `String.prototype.includes` tests for an occurrence; `replace` with a
  string pattern replaces only the first occurrence (`Includes`,
  `ReplaceFirst`).
- `Uint8Array` keeps the low byte of every entry (`Uint8`).

Code that works step by step is written as methods, each proved equal to a
reference function:

- `ApplyInversion` and `GetChordFromScale` with its stages, which update
  local arrays by sorting, splicing and pushing.
- `ApplyVoiceLeading`, `GenerateMelody`, `VariableLengthQuantity` and
  `ExportToMidi`, which are loops.

The lemmas then state what the source promises about those functions.

Points where the code behaves differently from what its comments and names
suggest, modelled as the code behaves:

- **The default chord type.** Without a chord type, `getChordFromScale`
  switches on the diatonic quality. Its "major" and "minor" cases are
  commented as defaulting to "maj7" and "min7"
  (src/utils/musicTheory.ts:229 and :232). They are taken only where the
  classifier falls back to a triad name, as on degree 1 of harmonic minor
  (a minor triad under a major seventh). On a degree
  with a major or minor seventh chord, `getDiatonicChordQuality` itself
  returns "maj7" or "min7", which no case names
  (`ChordBuilder.DefaultChordTypeOfQuality`). So on the major scale degrees
  I, ii, iii, IV and vi fall to the literal type "triad", which is then
  re-resolved by the quality. Since "maj7" and "min7" are neither "minor" nor
  "diminished", they sound a MAJOR triad
  (`ChordBuilder.SeventhQualitiesDefaultToTriad`).
- **An undefined root.** A degree past the end of a five- or six-note scale
  leaves the chord root `undefined`. It is modelled, not excluded
  (`ChordBuilder.UndefinedRootPitches`).
- **Patterns.** The neo-soul genre has an eight-degree pattern
  (src/utils/musicTheory.ts:37), so pattern lengths run from four to eight.
- **The MIDI file.** `exportToMidi` writes one track in format 0. The melody
  is not written to it.
- **The melody's scale.** `generateMelody` builds its scale on the first
  chord's root, not on the key of the progression.

## Model

| member | source | states |
|---|---|---|
| TheoryTables.NotesDistinct | src/utils/musicTheory.ts:3 | The note alphabet has twelve pairwise distinct names. |
| TheoryTables.NoteIndex | src/utils/musicTheory.ts:85 | `NOTES.indexOf(name)` is -1 exactly for names outside the alphabet; otherwise it is the position holding that name. |
| TheoryTables.NoteIndexInverse | src/utils/musicTheory.ts:3 | Looking up the name at position k gives back k, for every k below 12. |
| TheoryTables.NoteToMidi | src/utils/musicTheory.ts:84-87 | A named note in an octave gets the MIDI number whose pitch class is the name's index and whose quotient by 12 is octave + 1. An undefined or unknown name (index -1) gets the B of the octave below: pitch class 11, quotient octave. |
| TheoryTables.GetNoteName | src/utils/musicTheory.ts:93-95 | A non-negative MIDI number is named by the alphabet entry at its pitch class. |
| TheoryTables.NoteNameRoundTrip | src/utils/musicTheory.ts:84-95 | Naming the MIDI number of a note in any octave from -1 up gives back that note's name. |
| TheoryTables.ScaleTableWellFormed | src/utils/musicTheory.ts:5-14 | Every scale `ScaleOf` gives has five to seven offsets, starting at 0, strictly ascending, within one octave. |
| TheoryTables.ScaleIntervals | src/utils/musicTheory.ts:5-14 | A known scale's intervals have that same shape. |
| TheoryTables.GenreTableWellFormed | src/utils/musicTheory.ts:16-82 | Every genre `GenreOf` gives has six patterns of four to eight degrees, each degree between 1 and 7, and no empty chord-type name. |
| TheoryTables.ChordTypeIntervals | src/utils/musicTheory.ts:249-272 | Every chord type of the table has three to seven intervals, from 0 up, strictly rising, at most 21. |
| TheoryTables.ExtensionDensityNamed | src/utils/musicTheory.ts:372-377 | Every extension density's probability lies between 0 and 1. |
| Scales.RootIndex | src/utils/musicTheory.ts:123 | The root's index is -1 exactly when the root is undefined or not a note name; otherwise it is its position in the alphabet. |
| Scales.ScaleNotesOfNote | src/utils/musicTheory.ts:122-130 | On a real root, the first degree is the root, every degree is a name at its pitch class, and no name repeats. |
| Scales.ScaleNotesWithoutRoot | src/utils/musicTheory.ts:122-130 | On an undefined root, the first degree is undefined and every later degree is named a semitone below its interval. |
| Scales.GetScaleNotes | src/utils/musicTheory.ts:122-130 | A scale's notes are one per interval. On a real root they start with the root, are names from the alphabet and are distinct; otherwise the first is undefined. |
| Scales.ScaleNotesPitchClasses | src/utils/musicTheory.ts:125-129 | On a real root, note k has pitch class (root index + interval k) mod 12. On an undefined root, note k (k >= 1) is the name a semitone below interval k. |
| Scales.WrapIsRemainder | src/utils/musicTheory.ts:141-142 | The cyclic degree index agrees with the remainder by the scale's length. |
| Scales.DegreeInterval | src/utils/musicTheory.ts:140-146 | The interval from one degree to another, folded up by an octave when negative, lies in 0..11. |
| Scales.ClassifyChord | src/utils/musicTheory.ts:152-165 | The classification from third, fifth and seventh is always one of the eight diatonic quality names. |
| Scales.StackedQuality | src/utils/musicTheory.ts:139-165 | The seventh chord stacked in thirds on any degree of a well-formed scale classifies as one of the eight quality names. |
| Scales.DiatonicChordQuality | src/utils/musicTheory.ts:132-166 | A degree's quality is one of the eight names, and it is "major" for an unknown scale. |
| Scales.StackedQualityPeriodic | src/utils/musicTheory.ts:141-150 | A degree and the same degree one scale-length higher have the same quality. |
| Scales.MajorScaleQualities | src/utils/musicTheory.ts:132-166 | On the major scale the degrees give maj7, min7, min7, maj7, dom7, min7, min7b5. |
| Scales.HarmonicMinorQualities | src/utils/musicTheory.ts:132-166 | On the harmonic minor scale degree 7 is dim7 and degree 1 a minor triad. |
| Scales.RawChordNameIntervals | src/utils/musicTheory.ts:103 | One interval per later note. Each lies strictly between -12 and 12, differs from the true distance above the first note by a multiple of 12, and is non-negative for a note not below the first. |
| Scales.ChordNameIntervals | src/utils/musicTheory.ts:103-104 | Sorting the intervals keeps exactly the same values. |
| Scales.GetChordName | src/utils/musicTheory.ts:97-119 | No notes give "No Chord"; otherwise the name is the root's name plus "Major" (4 and 7 present), "Minor" (3 and 7) or "Unknown Chord". No other name can come out. |
| Scales.DominantSeventhNamedMajor | src/utils/musicTheory.ts:106-116 | Every chord whose intervals hold 4, 7 and 10 is named "Major" as written, and "Dominant 7" by the corrected classifier. |
| Scales.MiddleCDominantSeventh | src/utils/musicTheory.ts:97-116 | C-E-G-B flat above middle C has intervals 4, 7, 10 and root name "C". |
| Scales.GetChordNameCorrected | src/utils/musicTheory.ts:97-119 | The classifier with the sevenths examined first: no notes still give "No Chord". |
| Scales.CorrectedChordNames | src/utils/musicTheory.ts:106-119 | The corrected classifier gives each of the six names exactly on its own interval pattern (dominant, minor and major seventh, major, minor, unknown). |
| Voicing.Shifted | src/utils/musicTheory.ts:178 | Moving every note by d keeps the length and moves each note by exactly d. |
| Voicing.RaiseLowest | src/utils/musicTheory.ts:174-200 | Taking the k lowest notes up an octave and re-sorting gives an ascending voicing holding the other notes plus the raised ones. |
| Voicing.DropSecondHighest | src/utils/musicTheory.ts:201-208 | Drop-2 gives an ascending voicing of the same size: the second-highest note moved down an octave, the rest kept. |
| Voicing.TagOfNames | src/utils/musicTheory.ts:173-211 | `TagOf`: "first", "second", "third" and "drop2" select their voicings; "root" and the empty string select no change. |
| Voicing.Revoice | src/utils/musicTheory.ts:173-211 | Every voicing keeps the number of notes, and an ascending input gives an ascending result. |
| Voicing.Inversion | src/utils/musicTheory.ts:168-214 | Any inversion keeps the number of notes and returns them ascending. |
| Voicing.ApplyInversion | src/utils/musicTheory.ts:168-214 | The step-by-step inversion (copy, sort, shift or splice, push or unshift, re-sort) equals the reference function. |
| Voicing.RaiseLowestSteps | src/utils/musicTheory.ts:174-200 | Removing the k lowest notes, pushing them an octave up and sorting equals `RaiseLowest`. |
| Voicing.DropSecondHighestSteps | src/utils/musicTheory.ts:201-208 | Splicing out the second-highest note, unshifting it an octave down and sorting equals `DropSecondHighest`. |
| Voicing.InversionKeepsPitchClasses | src/utils/musicTheory.ts:168-214 | Every inversion sounds the same pitch classes, each as often as before. |
| Voicing.InversionStaysAbove | src/utils/musicTheory.ts:168-214 | No inversion puts a note more than an octave below the lowest input note. |
| Voicing.InversionRaisesLowest | src/utils/musicTheory.ts:174-200 | First, second and third inversion replace the 1, 2 or 3 lowest notes by their octave-up copies. |
| Voicing.DropTwoLowersSecondHighest | src/utils/musicTheory.ts:201-208 | Drop-2 trades the second-highest note for its octave-down copy and changes nothing else. |
| Voicing.RaiseLowestOfCloseVoicing | src/utils/musicTheory.ts:174-200 | In a voicing within one octave, raising the k lowest notes is a rotation: the rest, then the raised notes on top. |
| Voicing.NoMoveOnlySorts | src/utils/musicTheory.ts:169-211 | The default, and an inversion on a chord too small for it, only sort the notes. |
| Voicing.CloseVoicingInversion | src/utils/musicTheory.ts:174-200 | In a close voicing, inversion k is the rotation that moves the k lowest notes an octave up. |
| ChordBuilder.TableIntervals | src/utils/musicTheory.ts:274 | The looked-up intervals (or the triad's, for an unknown type) have three to seven tones, from 0, strictly rising, at most 21. |
| ChordBuilder.BaseShape | src/utils/musicTheory.ts:274-289 | The base intervals, including the re-resolved "triad", keep that shape. |
| ChordBuilder.UnknownTypeIsMajorTriad | src/utils/musicTheory.ts:274-275 | A type missing from the table sounds a major triad and keeps its own name as the symbol. |
| ChordBuilder.RawQualitiesNotInTable | src/utils/musicTheory.ts:249-272 | "major", "minor", "diminished" and "dom9" are not keys of the interval table. |
| ChordBuilder.SeventhQualitiesDefaultToTriad | src/utils/musicTheory.ts:224-289 | With no type given, the qualities "maj7" and "min7" fall to the literal "triad", which sounds a major triad. |
| ChordBuilder.SeventhQualitiesKeepType | src/utils/musicTheory.ts:224-275 | With no type given, "dom7" and "min7b5" keep their own type and intervals. |
| ChordBuilder.DeterminedChordTypeCases | src/utils/musicTheory.ts:222-246 | `DeterminedChordType`: a truthy type is used as given. Without one the default is a key of the interval table; it is "triad" exactly when the quality is "maj7", "min7" or "diminished". On an unknown scale the function alone gives "maj7"; `getChordFromScale` cannot reach that case, because `getScaleNotes` throws first. |
| ChordBuilder.DefaultChordTypeOfQuality | src/utils/musicTheory.ts:227-245 | `DefaultChordType` maps each of the eight qualities to a table key, and to "triad" for exactly the three the `switch` does not name. |
| ChordBuilder.ChordRootDefined | src/utils/musicTheory.ts:217-218 | `ChordRootOf` on the scale notes is undefined exactly past the end of the scale, or at degree 1 for a key outside the alphabet; otherwise it is a note name. |
| ChordBuilder.ExtensionProbability | src/utils/musicTheory.ts:292 | The extension probability, falling back to "none" and then to 0, lies between 0 and 1. |
| ChordBuilder.ExtensionCandidates | src/utils/musicTheory.ts:296-299 | The candidate extensions are exactly those of 14, 17, 21 the chord lacks. |
| ChordBuilder.ChosenExtension | src/utils/musicTheory.ts:302 | The chosen extension is one of 14, 17, 21 that is absent. |
| ChordBuilder.Extend | src/utils/musicTheory.ts:291-311 | The extension step keeps the interval shape and adds at most one tone. |
| ChordBuilder.PushKeepsShape | src/utils/musicTheory.ts:303-304 | Pushing a new tone within 21 and sorting keeps the shape and adds exactly that tone. |
| ChordBuilder.ExtensionAddsOne | src/utils/musicTheory.ts:291-311 | Unless the roll succeeds on a chord of four or more tones with an extension missing, nothing changes. Otherwise exactly one absent extension is added and the symbol is rewritten for it. |
| ChordBuilder.DominantNinthSymbol | src/utils/musicTheory.ts:305-308 | `ExtensionSymbol`: a ninth turns "dom7" into "dom9". |
| ChordBuilder.DominantEleventhSymbol | src/utils/musicTheory.ts:305-308 | An eleventh turns "dom7" into "dom11". |
| ChordBuilder.MajorThirteenthSymbol | src/utils/musicTheory.ts:305-308 | A thirteenth turns "maj7" into "maj13". |
| ChordBuilder.NinthToEleventhSymbol | src/utils/musicTheory.ts:305-308 | An eleventh turns "9" into "11": the "7" replace finds nothing, the "9" replace does. |
| ChordBuilder.ExtensionSymbolKeepsOthers | src/utils/musicTheory.ts:305-308 | A symbol holding none of "7", "9" and "11" is never changed by an extension. |
| ChordBuilder.NoDensityNoExtension | src/utils/musicTheory.ts:292-293 | A missing, "none" or unknown density never adds an extension. |
| ChordBuilder.DensityAllAlwaysExtends | src/utils/musicTheory.ts:292-301 | Density "all" always extends a seventh chord that lacks an extension. |
| ChordBuilder.AlterationCandidates | src/utils/musicTheory.ts:317-323 | The candidate alterations are exactly those of b9, #9, #11, b13 whose interval the chord lacks. |
| ChordBuilder.ChosenAlteration | src/utils/musicTheory.ts:326 | The chosen alteration's interval is one of 13, 15, 18, 20 and absent. |
| ChordBuilder.WithoutNaturalExtensions | src/utils/musicTheory.ts:328 | The filter keeps exactly the tones other than 14, 17 and 21, and it keeps the root first. |
| ChordBuilder.WithoutNaturalExtensionsAscending | src/utils/musicTheory.ts:328 | The filter keeps a strictly rising sequence strictly rising. |
| ChordBuilder.Alter | src/utils/musicTheory.ts:313-334 | The alteration step keeps the interval shape. |
| ChordBuilder.AlterationReplacesNaturals | src/utils/musicTheory.ts:313-334 | Unless the probability is truthy, the roll succeeds and the type counts as dominant, nothing changes. Otherwise the natural 9, 11 and 13 go, one absent alteration comes in and its suffix is appended. |
| ChordBuilder.DominantTest | src/utils/musicTheory.ts:315 | `IsDominant` holds for "dom7", "maj7", "min7", "min7b5" and "dim7", since each contains "7". |
| ChordBuilder.NonDominantTest | src/utils/musicTheory.ts:315 | "9", "13", "alt" and "triad" do not count as dominant. |
| ChordBuilder.AlterationRollCases | src/utils/musicTheory.ts:313 | `AlterationRoll`: with no probability, or one of 0 or less, the roll never succeeds; with one of 1 or more it always does. |
| ChordBuilder.ChordToneFormula | src/utils/musicTheory.ts:336-342 | `ChordToneMidi`, the `noteToMidi` of a tone's name and octave, is 60 + root index + interval on a known root. On an undefined root it is 47 for the root and 59 + interval above it. |
| ChordBuilder.ChordMidiTones | src/utils/musicTheory.ts:337-342 | Every tone of the `intervals.map` follows that formula. |
| ChordBuilder.ChordMidiRange | src/utils/musicTheory.ts:336-342 | The placed tones lie between 47 and 92 and rise strictly. |
| ChordBuilder.NotesOf | src/utils/musicTheory.ts:349-353 | Note k keeps pitch k, and its name is an alphabet entry whose index is that pitch's class. |
| ChordBuilder.NotesKeepPitches | src/utils/musicTheory.ts:349-360 | Reading the pitches back from the named notes (`notes.map(n => n.midi)`) gives exactly the pitches that were named. |
| ChordBuilder.VoicedMidi | src/utils/musicTheory.ts:337-347 | Without an inversion the pitches are the placed tones, strictly rising. With one they are its inversion. Either way they are ascending and at least 35. |
| ChordBuilder.AssembleChord | src/utils/musicTheory.ts:336-361 | The record carries the chord root and quality, the symbol is the root's text plus the suffix, and the notes name the voiced pitches. |
| ChordBuilder.FinalShape | src/utils/musicTheory.ts:274-334 | The intervals after lookup, extension and alteration keep the chord shape. |
| ChordBuilder.ChordFromScale | src/utils/musicTheory.ts:216-362 | The chord's quality is the determined type and its root is the scale degree's note. Notes and pitches agree and are non-empty, at least 35 and ascending, and strictly rising without an inversion. |
| ChordBuilder.GetChordFromScale | src/utils/musicTheory.ts:216-362 | The step-by-step construction equals `ChordFromScale`. |
| ChordBuilder.DefaultChordTypeSteps | src/utils/musicTheory.ts:224-246 | The `switch` on the diatonic quality equals `DefaultChordType`. |
| ChordBuilder.BaseShapeSteps | src/utils/musicTheory.ts:274-289 | The lookup and the "triad" re-resolution equal `BaseShape`. |
| ChordBuilder.ShapeSteps | src/utils/musicTheory.ts:274-334 | The base lookup, then the extension block, then the alteration block equal `FinalShape`, and the intervals keep their shape: from 0, strictly rising, within 21. |
| ChordBuilder.ExtensionCandidatesSteps | src/utils/musicTheory.ts:296-299 | The pushes of missing extensions equal `ExtensionCandidates`. |
| ChordBuilder.ExtendSteps | src/utils/musicTheory.ts:291-311 | The extension block equals `Extend`. |
| ChordBuilder.AlterationCandidatesSteps | src/utils/musicTheory.ts:317-323 | The pushes of missing alterations equal `AlterationCandidates`. |
| ChordBuilder.AlterSteps | src/utils/musicTheory.ts:313-334 | The alteration block equals `Alter`. |
| ChordBuilder.AssembleSteps | src/utils/musicTheory.ts:336-361 | The final mapping and record equal `AssembleChord`. |
| ChordBuilder.AssembledRootPosition | src/utils/musicTheory.ts:336-361 | On a named root and without an inversion, pitch k is 60 + root index + interval k, and the first note carries the root's name. |
| ChordBuilder.RootPositionPitches | src/utils/musicTheory.ts:216-362 | A chord on a degree inside the scale, of a root from the alphabet, without an inversion, is in root position on its scale-degree root. |
| ChordBuilder.UndefinedRootPitches | src/utils/musicTheory.ts:217-218 | A degree past the end of the scale gives an undefined root. The symbol starts with "undefined", and the tones are 47 and then 59 + interval. |
| ChordBuilder.InvertedChordPitchClasses | src/utils/musicTheory.ts:344-347 | An inverted chord is the inversion of its root-position pitches and sounds the same pitch classes. |
| ChordBuilder.SymbolStartsWithRoot | src/utils/musicTheory.ts:358 | The symbol is the root's text followed by the suffix the stages built. |
| Progression.CompatibleChordTypes | src/utils/musicTheory.ts:388-394 | The filter keeps exactly the genre's types for which `Compatible`, the four substring rules, holds. When the genre's types are distinct, they are kept in table order, which decides the one the index pick takes. |
| Progression.ChosenPattern | src/utils/musicTheory.ts:381 | The drawn pattern is one of the genre's, four to eight degrees from 1 to 7. |
| Progression.GenreFor | src/utils/musicTheory.ts:380 | A known genre's entry is well formed. |
| Progression.GenerateProgression | src/utils/musicTheory.ts:379-408 | A named genre gives one chord per degree of the drawn pattern. |
| Progression.ChosenTypeIsCompatibleOrDiatonic | src/utils/musicTheory.ts:396-401 | `ChosenChordType` is a compatible genre type when there is one and the roll is below 0.7, and the diatonic quality otherwise. |
| Progression.NoRuleNoCompatible | src/utils/musicTheory.ts:388-394 | A quality matching none of the four rules leaves no compatible type. |
| Progression.NoRuleWithoutOD | src/utils/musicTheory.ts:389-392 | A quality with neither 'o' nor 'd' matches no rule. |
| Progression.SeventhQualitiesMatchNoRule | src/utils/musicTheory.ts:389-392 | "maj7", "min7" and "min7b5" match no rule. |
| Progression.NoRuleKeepsQuality | src/utils/musicTheory.ts:396-401 | Such a quality is always used as the chord type itself. |
| Progression.MajorScaleOnlyDominantVaries | src/utils/musicTheory.ts:384-401 | On the major scale, every degree but the fifth keeps its diatonic quality as the chord type, whatever the genre and the draws. |
| Progression.ChosenTypeNonEmpty | src/utils/musicTheory.ts:396-401 | With non-empty genre types, the chosen type is never empty, so it is always passed on as given. |
| Progression.DegreeChordQuality | src/utils/musicTheory.ts:383-406 | The chord `DegreeChord` builds for a degree has exactly the chosen type as its quality. |
| Progression.ProgressionQualities | src/utils/musicTheory.ts:379-408 | Chord i's quality is the chosen type for degree i: a compatible genre type, or the diatonic quality. |
| Progression.EveryPatternReachable | src/utils/musicTheory.ts:381 | Every one of a genre's six patterns is chosen by some draw. |
| VoiceLeading.OctaveCopies | src/utils/musicTheory.ts:440-445 | Each base candidate is followed by its octave-up and octave-down copies. |
| VoiceLeading.Candidates | src/utils/musicTheory.ts:427-445 | There are twelve candidates, the chord as given first. |
| VoiceLeading.CandidatesKeepPitchClasses | src/utils/musicTheory.ts:427-450 | Every sorted candidate sounds the chord's pitch classes. |
| VoiceLeading.CandidatesAbove | src/utils/musicTheory.ts:427-450 | For a chord at or above MIDI 12, every candidate stays at or above 0, so `getNoteName` is defined. |
| VoiceLeading.MovementZeroIffSame | src/utils/musicTheory.ts:452-458 | `Movement`, summed over the common voices, is zero exactly when those voices agree. |
| VoiceLeading.FirstMinIndex | src/utils/musicTheory.ts:460-473 | The strict `<` scan keeps the first index of least cost: no cost is lower, and every earlier one is higher. |
| VoiceLeading.BestIndex | src/utils/musicTheory.ts:460-473 | The chosen candidate moves no more than any of the twelve sorted candidates, and every earlier candidate moves strictly more. |
| VoiceLeading.LeadStep | src/utils/musicTheory.ts:447-475 | The led chord keeps its root, quality and symbol and has as many pitches, named by `getNoteName`. |
| VoiceLeading.LeadStepIsFirstCheapest | src/utils/musicTheory.ts:447-475 | The led voicing is the first sorted candidate of least movement. |
| VoiceLeading.Revoiced | src/utils/musicTheory.ts:463-472 | The spread record keeps the chord's fields and replaces its pitches and notes. |
| VoiceLeading.LedByAgreeAt | src/utils/musicTheory.ts:413-476 | Two sequences led by the same step from the same first chord agree at every position. |
| VoiceLeading.VoiceLedUnique | src/utils/musicTheory.ts:410-478 | The voice-led result is unique. |
| VoiceLeading.CandidateVoicings | src/utils/musicTheory.ts:427-445 | The candidate list built by pushes equals `Candidates`. |
| VoiceLeading.AddOctaveCopies | src/utils/musicTheory.ts:440-445 | The loop over the original candidates appends exactly their octave copies. |
| VoiceLeading.MovementSteps | src/utils/musicTheory.ts:452-458 | The summing loop equals `Movement`. |
| VoiceLeading.ScanCandidates | src/utils/musicTheory.ts:448-474 | The scan with `Infinity` as the first bound returns the first cheapest sorted candidate. |
| VoiceLeading.BestVoicing | src/utils/musicTheory.ts:416-475 | One iteration of the outer loop equals `LeadStep`. |
| VoiceLeading.ApplyVoiceLeading | src/utils/musicTheory.ts:410-478 | The result keeps the first chord and leads every later chord from the one before. With at most one chord it is the input. |
| VoiceLeading.VoiceLeadingProperties | src/utils/musicTheory.ts:410-478 | Every led chord keeps its root, quality, symbol, note count and pitch classes. It is ascending and moves no more than the chord as given would. |
| Melody.ScaleTones | src/utils/musicTheory.ts:489-491 | The filter keeps exactly the chord notes for which `InScale` holds: their name lies in the scale. |
| Melody.MelodyNote | src/utils/musicTheory.ts:489-520 | The note is a chord note. It is in the scale exactly when some chord note is, and it is the chord's first note when none is. After the first chord it is the nearest in-scale note. |
| Melody.MelodyFrom | src/utils/musicTheory.ts:486-521 | One note per chord. |
| Melody.MelodyOf | src/utils/musicTheory.ts:480-523 | The melody has one note per chord of the progression. |
| Melody.MelodyFromAt | src/utils/musicTheory.ts:486-521 | Note i is chosen from chord i with the previous note as the last melody pitch. |
| Melody.MelodyProperties | src/utils/musicTheory.ts:480-523 | Each note belongs to its chord: an in-scale note when there is one, else the chord's first note. The first note is the drawn in-scale note, and every later one is at least as near the previous note as any in-scale candidate. |
| Melody.NearestChoiceIsFirst | src/utils/musicTheory.ts:498-505 | On ties the earliest nearest candidate wins. |
| Melody.NearestIsFirst | src/utils/musicTheory.ts:496-505 | Every later melody note is the first candidate of least distance. |
| Melody.FirstNoteReachable | src/utils/musicTheory.ts:508 | Every in-scale note of the first chord is chosen by some draw. |
| Melody.FilterScaleTones | src/utils/musicTheory.ts:489-491 | The filtering loop equals `ScaleTones`. |
| Melody.NearestTone | src/utils/musicTheory.ts:498-505 | The scan with `Infinity` as the first bound returns the first nearest candidate. |
| Melody.ChooseNote | src/utils/musicTheory.ts:489-520 | One iteration's choice equals `MelodyNote`. |
| Melody.GenerateMelody | src/utils/musicTheory.ts:480-523 | The loop over the progression returns `MelodyOf`. |
| MidiExport.VlqHigh | src/utils/midiExport.ts:85-88 | The leading groups are bytes with bit 7 set, none for a value of 0, and the first is never a bare continuation byte. |
| MidiExport.Vlq | src/utils/midiExport.ts:76-91 | The encoding is non-empty bytes, bit 7 set on all but the last and clear on the last, with no leading zero group. |
| MidiExport.VlqRoundTrip | src/utils/midiExport.ts:76-91 | Decoding the encoding followed by any bytes gives back the value and the remaining bytes. |
| MidiExport.VlqAtMostFourBytes | src/utils/midiExport.ts:76-91 | Values below 2^28 take at most four bytes, the limit Standard MIDI Files 1.0 sets. |
| MidiExport.VariableLengthQuantity | src/utils/midiExport.ts:76-91 | The loop that unshifts 7-bit groups equals `Vlq`. |
| MidiExport.TickQuantities | src/utils/midiExport.ts:14-15 | 480 ticks encode as 83 60, the 1920 ticks of a chord as 8F 00, and 0 as one byte. |
| MidiExport.MicrosecondsPerQuarter | src/utils/midiExport.ts:24 | The tempo value is 60000000 / tempo rounded to the nearest integer, half up. |
| MidiExport.TempoEvent | src/utils/midiExport.ts:25-30 | The Set Tempo event is seven bytes. |
| MidiExport.TempoBytesRoundTrip | src/utils/midiExport.ts:24-30 | From tempo 4 up the value fits 24 bits, and the three bytes read big-endian give it back. |
| MidiExport.LengthField | src/utils/midiExport.ts:62-68 | The length is written as four bytes. |
| MidiExport.LengthFieldRoundTrip | src/utils/midiExport.ts:62-68 | Below 2^32 the four bytes read big-endian give the length back. |
| MidiExport.Uint8 | src/utils/midiExport.ts:72 | `Uint8Array` gives bytes of the same count and leaves bytes unchanged. |
| MidiExport.HeaderFields | src/utils/midiExport.ts:5-11 | The header reads MThd, length 6, format 0, one track, 480 ticks per quarter note. |
| MidiExport.NoteEventsBytes | src/utils/midiExport.ts:36-55 | Note events of bytes are bytes. |
| MidiExport.ChordsEventsBytes | src/utils/midiExport.ts:32-56 | The events of chords whose pitches are below 128 are bytes. |
| MidiExport.TrackDataBytes | src/utils/midiExport.ts:20-59 | The track data of such chords is bytes. |
| MidiExport.NoteEventsHead | src/utils/midiExport.ts:36-55 | The first event carries the chord's delta and the first note. Every event after it is four bytes. |
| MidiExport.NoteEventsAt | src/utils/midiExport.ts:36-55 | Event k after the first is 0, the status, note k and the velocity. |
| MidiExport.ChordEventsSize | src/utils/midiExport.ts:32-56 | A chord of n notes takes 8n + 1 bytes for the first chord and 8n + 2 for later ones. |
| MidiExport.ChordsEventsSize | src/utils/midiExport.ts:32-56 | All chords take 8 x (all notes) + 2 x (chords) - 1 bytes. |
| MidiExport.TrackDataLayout | src/utils/midiExport.ts:20-59 | The track data is the Set Tempo event carrying the tempo value, then the chord events, then End of Track. |
| MidiExport.FileLayout | src/utils/midiExport.ts:61-72 | Header, MTrk and a length field that reads back as the data's length, then the data itself. |
| MidiExport.MidiFileLayout | src/utils/midiExport.ts:3-74 | The file is the header, MTrk, the track length and the track data, 22 bytes plus the data. |
| MidiExport.PushNoteEvents | src/utils/midiExport.ts:36-55 | The `forEach` over a chord's notes appends exactly `NoteEvents`. |
| MidiExport.PushChordEvents | src/utils/midiExport.ts:35-55 | One chord's iteration appends its note-on and then its note-off events. |
| MidiExport.BuildTrackData | src/utils/midiExport.ts:20-59 | The loop over the chords builds exactly `TrackData`. |
| MidiExport.ExportToMidi | src/utils/midiExport.ts:3-74 | The bytes written equal `MidiBytes`. |
| Draws.PickIndex | src/utils/musicTheory.ts:302 | `Math.floor(u * n)` of a draw is an index below n. |
| Draws.PickIndexReachesAll | src/utils/musicTheory.ts:302 | Every index below n is picked by some draw. |
| Sorting.SortAscending | src/utils/musicTheory.ts:171 | The numeric sort returns an ascending permutation of its input. |
| Sorting.AscendingUnique | src/utils/musicTheory.ts:171 | Two ascending permutations of each other are equal, so the sort is determined by its contents. |
| Sorting.SortOfAscending | src/utils/musicTheory.ts:179 | Sorting an ascending sequence leaves it unchanged. |
| JsBuiltins.IndexOfSubstring | src/utils/musicTheory.ts:315 | The substring search returns the first position where the pattern occurs, and -1 exactly when it occurs nowhere, that is when `includes` fails. |
| JsBuiltins.ReplaceFirst | src/utils/musicTheory.ts:306-308 | `replace` changes nothing without an occurrence. Otherwise it swaps the first occurrence, and only that one, for the replacement. |
| JsBuiltins.FirstOccurrenceIsIndex | src/utils/musicTheory.ts:306-308 | Any first occurrence is the one the search returns. |
| JsBuiltins.NoOccurrenceExcludes | src/utils/musicTheory.ts:315 | A string with no occurrence at any position does not include the pattern. |
| JsBuiltins.IndexOf | src/utils/musicTheory.ts:85 | `indexOf` finds the first position of the element, and -1 exactly when it is absent. |
| JsBuiltins.KeyLookup | src/utils/musicTheory.ts:274 | A record read is defined exactly when the key is present, and then it is the value of the first entry with that key. |
| JsBuiltins.TruncRem12 | src/utils/musicTheory.ts:127 | JavaScript's `%` by 12 agrees with the remainder for non-negative operands, and it is 0 or the remainder minus 12 for negative ones. Either way it differs from the operand by a multiple of 12. |

## Left out

- The audio engine, the React components and the application shell are not
  part of this model.
- `midiToFrequency`, and the `frequency` field of a note, is left out because
  it is floating point.
- `downloadMidi` is left out: it only creates a `Blob` and a link, which is
  I/O. `ExportToMidi` returns the bytes of the `Blob`.
- `RHYTHM_PATTERNS` and the unused `rhythmPatternName` parameter are not
  modelled; no modelled code reads them.
- The `tempo` parameter of `generateMelody` is never read. It is accepted and
  ignored.
- The `console.warn` for an unknown scale is I/O and is dropped. The
  `"major"` fallback is modelled.
- Scales.GetChordName requires its first MIDI number, and
  TheoryTables.GetNoteName its argument, to be at least 0. A negative number gives a negative JavaScript
  remainder and an `undefined` name.
- VoiceLeading.ApplyVoiceLeading requires every chord after the first to lie
  at or above MIDI 12, so that the octave-down candidates still have names.
  `getChordFromScale` always places tones above 34.
- Melody.GenerateMelody requires a non-empty progression whose chords all
  have notes. The source throws on an empty progression, and the fallback of
  a chord without notes throws too.
- Progression.GenerateProgression requires a known scale and genre. The
  source throws on an unknown genre. For an unknown scale it reads the
  intervals of `undefined`.
- Scales.GetScaleNotes, ChordBuilder.ChordFromScale,
  ChordBuilder.GetChordFromScale, Melody.MelodyOf and Melody.GenerateMelody
  require a known scale name. For an unknown one the source reads
  `intervals` of `undefined` and throws.
- ChordBuilder.ChordFromScale requires a degree of at least 1. Degrees below
  1 index the scale at a negative position; no genre pattern holds one.
- MidiExport.VariableLengthQuantity requires a value below 2^31, where the
  bit operators agree with `/ 128` and `% 128`. The only values passed are 0
  and 1920.
- MidiExport.ExportToMidi requires a positive tempo. A tempo of 0 or less,
  and a fractional tempo, are not modelled. The tempo bytes are stated from
  tempo 4 up, where the value fits the three bytes Standard MIDI Files 1.0
  gives it.
- MidiExport.LengthFieldRoundTrip reads the length back only below 2^32. The
  four-byte field cannot hold more.
- `Array.prototype.sort` sorts in place, so `getChordFromScale`'s `intervals`
  and the candidate arrays of `applyVoiceLeading` are mutated. The model
  works on values: aliasing is not modelled. The only aliasing is the
  voice-leading candidate at index 0, which is `currentChord.midi` itself;
  the source sorts that array in place, and the model does not capture this
  mutation of the caller's chord.
- Keys inherited from `Object.prototype` (for example `"constructor"`) are
  not modelled as record entries. They are treated as missing.
- Each `Math.random()` call is an argument. `generateMelody` uses its one
  draw only for the first note, as the source does.

## Findings

| source | as written | input that shows it | evidently intended | confidence | as-written member | corrected member |
|---|---|---|---|---|---|---|
| src/utils/musicTheory.ts:106-116 | The "Dominant 7", "Minor 7" and "Major 7" branches require supersets of the conditions of the "Major" and "Minor" branches before them, so they can never be taken. | [60, 64, 67, 70] (C E G B flat) is named "C Major". | A dominant seventh is named "C Dominant 7": the sevenths are examined before the triads. | not executed | Scales.DominantSeventhNamedMajor | Scales.CorrectedChordNames |

/**
 * `generateProgression`: a degree pattern of the genre, chosen by one draw,
 * mapped to chords. For each degree the chord type is, with probability
 * 0.7, one of the genre's chord types whose name suits the diatonic quality
 * (by substring tests), and otherwise the diatonic quality itself.
 */
module Progression {
  import opened Wrappers
  import opened JsBuiltins
  import opened MusicTypes
  import opened TheoryTables
  import opened Scales
  import opened Draws
  import opened ChordBuilder

  /** The draws spent on one degree: the 0.7 roll, the pick among suitable types, and the chord's own draws. */
  datatype DegreeDraws = DegreeDraws(genreRoll: real, typePick: real, chord: ChordDraws)

  predicate ValidDegreeDraws(d: DegreeDraws) {
    UnitDraw(d.genreRoll) && UnitDraw(d.typePick) && ValidChordDraws(d.chord)
  }

  /** The options passed through to every chord; the rhythm pattern name is accepted by the source and never read. */
  datatype ProgressionOptions = ProgressionOptions(
    inversion: Option<string>,
    extensionDensity: Option<string>,
    alterationProbability: Option<real>)

  /** The filter's test: whether chord type `t` suits the diatonic quality, by substring. */
  predicate Compatible(diatonic: string, t: string) {
    (Includes(diatonic, "major") && (Includes(t, "maj") || t == "9" || t == "11" || t == "13" || t == "add9" || t == "6/9"))
    || (Includes(diatonic, "minor") && (Includes(t, "min") || t == "9" || t == "11" || t == "13"))
    || (Includes(diatonic, "dom") && (Includes(t, "dom") || t == "9" || t == "11" || t == "13" || t == "alt"))
    || (Includes(diatonic, "dim") && (Includes(t, "dim") || Includes(t, "min7b5")))
  }

  /** `genre.chordTypes.filter(...)`: the genre's types that suit the quality, in table order. */
  function CompatibleChordTypes(diatonic: string, types: seq<string>): (c: seq<string>)
    ensures forall t :: t in c <==> t in types && Compatible(diatonic, t)
    ensures |c| <= |types|
    ensures (forall i, j :: 0 <= i < j < |types| ==> types[i] != types[j]) ==>
      forall i, j :: 0 <= i < j < |c| ==> IndexOf(types, c[i]) < IndexOf(types, c[j])
  {
    if types == [] then []
    else
      var rest := CompatibleChordTypes(diatonic, types[1..]);
      assert forall t :: t in types <==> t == types[0] || t in types[1..];
      IndexOfTail(types);
      if Compatible(diatonic, types[0]) then [types[0]] + rest else rest
  }

  /** Past the head, the position of an element is its position in the tail plus one. */
  lemma IndexOfTail(types: seq<string>)
    requires |types| > 0
    ensures forall t :: t in types[1..] && t != types[0] ==> IndexOf(types, t) == IndexOf(types[1..], t) + 1
  {
  }

  /** `chosenChordType`: a suitable genre type when there is one and the roll is below 0.7, else the quality. */
  function ChosenChordType(diatonic: string, types: seq<string>, roll: real, pick: real): string
    requires UnitDraw(pick)
  {
    var compatible := CompatibleChordTypes(diatonic, types);
    if |compatible| > 0 && roll < 0.7 then compatible[PickIndex(pick, |compatible|)] else diatonic
  }

  /** `genre.patterns[Math.floor(roll * genre.patterns.length)]`. */
  function ChosenPattern(g: Genre, roll: real): (p: seq<int>)
    requires WellFormedGenre(g) && UnitDraw(roll)
    ensures PatternShape(p)
  {
    g.patterns[PickIndex(roll, 6)]
  }

  /** `GENRES[genreName]` for a name the table holds. */
  function GenreFor(genreName: string): (g: Genre)
    requires KnownGenre(genreName)
    ensures WellFormedGenre(g)
  {
    GenreTableWellFormed(GenreTagOf(genreName).value);
    GenreOf(GenreTagOf(genreName).value)
  }

  /** The chord the `map` callback builds on one degree. */
  function DegreeChord(key: string, scaleName: string, types: seq<string>, degree: int, opts: ProgressionOptions, d: DegreeDraws): Chord
    requires KnownScale(scaleName) && degree >= 1 && ValidDegreeDraws(d)
  {
    ChordFromScale(key, degree, scaleName,
      ChordOptions(Some(ChosenChordType(DiatonicChordQuality(scaleName, degree), types, d.genreRoll, d.typePick)),
        opts.inversion, opts.extensionDensity, opts.alterationProbability),
      d.chord)
  }

  /**
   * `generateProgression(key, scaleName, genreName, ...)`: the chosen
   * pattern, one chord per degree; `draws[i]` holds the draws of degree i.
   */
  function GenerateProgression(key: string, scaleName: string, genreName: string, opts: ProgressionOptions,
                               patternRoll: real, draws: seq<DegreeDraws>): (chords: seq<Chord>)
    requires KnownScale(scaleName) && KnownGenre(genreName) && UnitDraw(patternRoll)
    requires |draws| >= |ChosenPattern(GenreFor(genreName), patternRoll)|
    requires forall i :: 0 <= i < |draws| ==> ValidDegreeDraws(draws[i])
    ensures |chords| == |ChosenPattern(GenreFor(genreName), patternRoll)|
  {
    ProgressionOf(key, scaleName, GenreFor(genreName), opts, patternRoll, draws)
  }

  /** The `pattern.map(...)` over a genre record. */
  function ProgressionOf(key: string, scaleName: string, g: Genre, opts: ProgressionOptions,
                         patternRoll: real, draws: seq<DegreeDraws>): (chords: seq<Chord>)
    requires KnownScale(scaleName) && WellFormedGenre(g) && UnitDraw(patternRoll)
    requires |draws| >= |ChosenPattern(g, patternRoll)|
    requires forall i :: 0 <= i < |draws| ==> ValidDegreeDraws(draws[i])
    ensures |chords| == |ChosenPattern(g, patternRoll)|
    ensures forall i :: 0 <= i < |chords| ==>
      chords[i] == DegreeChord(key, scaleName, g.chordTypes, ChosenPattern(g, patternRoll)[i], opts, draws[i])
  {
    var pattern := ChosenPattern(g, patternRoll);
    seq(|pattern|, i requires 0 <= i < |pattern| =>
      DegreeChord(key, scaleName, g.chordTypes, pattern[i], opts, draws[i]))
  }

  // ---------------------------------------------------------------------
  // Properties
  // ---------------------------------------------------------------------

  /**
   * The chosen type is a suitable genre type or the diatonic quality; it is
   * the quality whenever no genre type suits or the roll is 0.7 or more, and
   * a suitable genre type otherwise.
   */
  lemma ChosenTypeIsCompatibleOrDiatonic(diatonic: string, types: seq<string>, roll: real, pick: real)
    requires UnitDraw(pick)
    ensures var t := ChosenChordType(diatonic, types, roll, pick);
      (t in types && Compatible(diatonic, t)) || t == diatonic
    ensures CompatibleChordTypes(diatonic, types) == [] || roll >= 0.7 ==> ChosenChordType(diatonic, types, roll, pick) == diatonic
    ensures CompatibleChordTypes(diatonic, types) != [] && roll < 0.7 ==>
      var t := ChosenChordType(diatonic, types, roll, pick);
      t in types && Compatible(diatonic, t)
  {
    var c := CompatibleChordTypes(diatonic, types);
    if |c| > 0 && roll < 0.7 {
      assert c[PickIndex(pick, |c|)] in c;
    }
  }

  /** A quality none of the four substring rules accepts. */
  predicate MatchesNoRule(diatonic: string) {
    !Includes(diatonic, "major") && !Includes(diatonic, "minor") && !Includes(diatonic, "dom") && !Includes(diatonic, "dim")
  }

  lemma {:induction false} NoRuleNoCompatible(diatonic: string, types: seq<string>)
    requires MatchesNoRule(diatonic)
    ensures CompatibleChordTypes(diatonic, types) == []
  {
    if types != [] {
      NoRuleNoCompatible(diatonic, types[1..]);
    }
  }

  /** A quality without an "o" and a "d" matches none of the four rules: "major", "minor" and "dom" hold an "o", "dim" a "d". */
  lemma NoRuleWithoutOD(diatonic: string)
    requires 'o' !in diatonic && 'd' !in diatonic
    ensures MatchesNoRule(diatonic)
  {
    MissingCharExcludes(diatonic, "major", 'o');
    MissingCharExcludes(diatonic, "minor", 'o');
    MissingCharExcludes(diatonic, "dom", 'o');
    MissingCharExcludes(diatonic, "dim", 'd');
  }

  /** The seventh-chord qualities "maj7", "min7" and "min7b5" contain none of "major", "minor", "dom", "dim". */
  lemma SeventhQualitiesMatchNoRule()
    ensures MatchesNoRule("maj7") && MatchesNoRule("min7") && MatchesNoRule("min7b5")
  {
    NoRuleWithoutOD("maj7");
    NoRuleWithoutOD("min7");
    NoRuleWithoutOD("min7b5");
  }

  /** A quality no rule accepts passes through the choice unchanged, whatever the genre's types and draws. */
  lemma NoRuleKeepsQuality(q: string, types: seq<string>, roll: real, pick: real)
    requires MatchesNoRule(q) && UnitDraw(pick)
    ensures ChosenChordType(q, types, roll, pick) == q
  {
    NoRuleNoCompatible(q, types);
  }

  /** In the major scale only the dominant (degree 5) can take a genre chord type; every other degree keeps its diatonic quality. */
  lemma MajorScaleOnlyDominantVaries(types: seq<string>, roll: real, pick: real)
    requires UnitDraw(pick)
    ensures ChosenChordType(DiatonicChordQuality("major", 1), types, roll, pick) == DiatonicChordQuality("major", 1)
    ensures ChosenChordType(DiatonicChordQuality("major", 2), types, roll, pick) == DiatonicChordQuality("major", 2)
    ensures ChosenChordType(DiatonicChordQuality("major", 3), types, roll, pick) == DiatonicChordQuality("major", 3)
    ensures ChosenChordType(DiatonicChordQuality("major", 4), types, roll, pick) == DiatonicChordQuality("major", 4)
    ensures ChosenChordType(DiatonicChordQuality("major", 6), types, roll, pick) == DiatonicChordQuality("major", 6)
    ensures ChosenChordType(DiatonicChordQuality("major", 7), types, roll, pick) == DiatonicChordQuality("major", 7)
  {
    MajorScaleQualities();
    SeventhQualitiesMatchNoRule();
    NoRuleKeepsQuality("maj7", types, roll, pick);
    NoRuleKeepsQuality("min7", types, roll, pick);
    NoRuleKeepsQuality("min7b5", types, roll, pick);
  }

  /** The chosen type is never empty, so the chord takes it as its quality rather than a default. */
  lemma ChosenTypeNonEmpty(diatonic: string, types: seq<string>, roll: real, pick: real)
    requires diatonic in DiatonicQualities && UnitDraw(pick)
    requires forall j :: 0 <= j < |types| ==> |types[j]| > 0
    ensures ChosenChordType(diatonic, types, roll, pick) != ""
  {
    var t := ChosenChordType(diatonic, types, roll, pick);
    ChosenTypeIsCompatibleOrDiatonic(diatonic, types, roll, pick);
    if t in types {
      var j :| 0 <= j < |types| && types[j] == t;
    }
  }

  /** The chord built on a degree has the chosen chord type as its quality. */
  lemma DegreeChordQuality(key: string, scaleName: string, types: seq<string>, degree: int, opts: ProgressionOptions, d: DegreeDraws)
    requires KnownScale(scaleName) && degree >= 1 && ValidDegreeDraws(d)
    requires forall j :: 0 <= j < |types| ==> |types[j]| > 0
    ensures DegreeChord(key, scaleName, types, degree, opts, d).quality
      == ChosenChordType(DiatonicChordQuality(scaleName, degree), types, d.genreRoll, d.typePick)
  {
    ChosenTypeNonEmpty(DiatonicChordQuality(scaleName, degree), types, d.genreRoll, d.typePick);
  }

  /** Every chord of a progression has the type chosen for its degree as quality, and it is a suitable genre type or the degree's diatonic quality. */
  lemma ProgressionQualities(key: string, scaleName: string, g: Genre, opts: ProgressionOptions,
                             patternRoll: real, draws: seq<DegreeDraws>, i: int)
    requires KnownScale(scaleName) && WellFormedGenre(g) && UnitDraw(patternRoll)
    requires |draws| >= |ChosenPattern(g, patternRoll)|
    requires forall j :: 0 <= j < |draws| ==> ValidDegreeDraws(draws[j])
    requires 0 <= i < |ChosenPattern(g, patternRoll)|
    ensures var chords := ProgressionOf(key, scaleName, g, opts, patternRoll, draws);
      var degree := ChosenPattern(g, patternRoll)[i];
      var q := chords[i].quality;
      q == ChosenChordType(DiatonicChordQuality(scaleName, degree), g.chordTypes, draws[i].genreRoll, draws[i].typePick)
      && ((q in g.chordTypes && Compatible(DiatonicChordQuality(scaleName, degree), q))
          || q == DiatonicChordQuality(scaleName, degree))
  {
    var degree := ChosenPattern(g, patternRoll)[i];
    DegreeChordQuality(key, scaleName, g.chordTypes, degree, opts, draws[i]);
    ChosenTypeIsCompatibleOrDiatonic(DiatonicChordQuality(scaleName, degree), g.chordTypes, draws[i].genreRoll, draws[i].typePick);
  }

  /** Every pattern of a genre is chosen by some draw: the draw `i / 6` picks pattern `i`. */
  lemma EveryPatternReachable(g: Genre, i: nat)
    requires WellFormedGenre(g) && i < 6
    ensures UnitDraw(i as real / 6.0) && ChosenPattern(g, i as real / 6.0) == g.patterns[i]
  {
    PickIndexReachesAll(i, 6);
  }
}

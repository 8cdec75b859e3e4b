/**
 * The parsed score as the chord-suggestion engine sees it, and the music-theory
 * library calls it makes, abstracted as opaque (possibly raising) functions.
 */
module ScoreModel {
  import opened Wrappers

  /** A pitch: its name with accidental as the library spells it ("C#") and its octave. */
  datatype Pitch = Pitch(name: string, octave: int)

  /**
   * A sounding event of a measure. A Note may lack a pitch (an undetermined pitch);
   * a Chord carries zero or more pitches. Offsets are exact positions within the measure.
   */
  datatype Event =
    | Note(pitch: Option<Pitch>, offset: real)
    | Chord(pitches: seq<Pitch>, offset: real)

  datatype TimeSignature = TimeSignature(numerator: nat, denominator: nat)

  datatype KeySignature = KeySignature(sharps: int)

  /** A measure keeps the number it was parsed with; it is never renumbered. */
  datatype Measure = Measure(
    number: int,
    timeSignature: Option<TimeSignature>,
    keySignature: Option<KeySignature>,
    events: seq<Event>)

  datatype Part = Part(id: string, measures: seq<Measure>)

  datatype Score = Score(parts: seq<Part>)

  /** A global key estimate; `name` is its printed form ("C major"). */
  datatype Key = Key(name: string)

  /** A chord symbol: its figure ("Cmaj7") and the lyrics attached to it. */
  datatype ChordSymbol = ChordSymbol(figure: string, lyrics: seq<string>)

  /**
   * Why a run stops: the score has no parts to choose a melody from, or copying an
   * analysed chord symbol into the chord track raised (that copy has no handler).
   */
  datatype EngineError = NoPartsFound | ChordCopyRaised

  /** The outcome of a library call that may raise an exception. */
  datatype Call<+T> = Raised | Returned(value: T)

  /** An exception handler that turns a raised call into "no value". */
  function Caught<T>(c: Call<T>): (r: Option<T>)
    ensures r.Some? <==> c.Returned?
    ensures c.Returned? ==> r.value == c.value
  {
    match c
    case Raised => None
    case Returned(v) => Some(v)
  }

  /**
   * The music-theory library, as the engine uses it. Nothing is known about
   * these functions beyond their types: the model holds for every choice of them.
   *  - chordSymbolFromChord(pitches, forceTriad): building a chord from the pitches and
   *    spelling it as a chord symbol; it may return no symbol or raise.
   *  - romanNumeralFigure(pitch, key): the figure of the Roman numeral of a one-note
   *    chord in the key; it may raise.
   *  - chordSymbolFromFigure(figure): constructing a chord symbol from a figure; it may raise.
   *  - analyzeKey(score): the global key analysis; it may raise.
   */
  datatype Music21 = Music21(
    chordSymbolFromChord: (seq<Pitch>, bool) -> Call<Option<ChordSymbol>>,
    romanNumeralFigure: (Pitch, Key) -> Call<string>,
    chordSymbolFromFigure: string -> Call<ChordSymbol>,
    analyzeKey: Score -> Call<Key>)
}

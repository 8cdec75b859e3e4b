/**
 * Chord-track assembly: a new "Chords" part with one measure per analysis result,
 * placed above the original parts in a new score.
 */
module Assembly {
  import opened Wrappers
  import opened ScoreModel
  import opened Harmonization

  /** A chord symbol inserted at an offset of a measure. */
  datatype PlacedSymbol = PlacedSymbol(offset: real, symbol: ChordSymbol)

  /** A measure of the chord track: number and signatures copied, the symbols it holds. */
  datatype ChordMeasure = ChordMeasure(
    number: int,
    timeSignature: Option<TimeSignature>,
    keySignature: Option<KeySignature>,
    symbols: seq<PlacedSymbol>)

  /** A part of the new score: the synthetic chord track, or an original part as it was. */
  datatype OutputPart =
    | ChordsPart(id: string, staffLines: nat, measures: seq<ChordMeasure>)
    | OriginalPart(part: Part)

  datatype OutputScore = OutputScore(parts: seq<OutputPart>)

  const ChordsPartId: string := "Chords"
  const UncertainLyric: string := "(uncertain)"

  /**
   * Copying a result's symbol raises: the result holds a symbol, and constructing a
   * new one from its figure raises. Nothing handles that exception.
   */
  predicate CopyRaises(m21: Music21, r: AnalysisResult)
  {
    r.symbol.Some? && m21.chordSymbolFromFigure(r.symbol.value.figure).Raised?
  }

  /** A constructed copy with the marker appended to its lyrics when the measure was flagged. */
  function Annotated(copy: ChordSymbol, uncertain: bool): ChordSymbol
  {
    if uncertain then copy.(lyrics := copy.lyrics + [UncertainLyric]) else copy
  }

  /** The measure built for one analysis result, or Raised when copying its symbol raises. */
  function ChordMeasureFor(m21: Music21, r: AnalysisResult): Call<ChordMeasure>
  {
    var m := r.measure;
    match r.symbol
    case None => Returned(ChordMeasure(m.number, m.timeSignature, m.keySignature, []))
    case Some(cs) =>
      match m21.chordSymbolFromFigure(cs.figure)
      case Raised => Raised
      case Returned(copy) =>
        Returned(ChordMeasure(m.number, m.timeSignature, m.keySignature, [PlacedSymbol(0.0, Annotated(copy, r.uncertain))]))
  }

  /** The chord track: the measures built in result order; it raises once one copy does. */
  function ChordTrack(m21: Music21, results: seq<AnalysisResult>): Call<seq<ChordMeasure>>
  {
    if results == [] then Returned([])
    else
      match ChordTrack(m21, results[..|results| - 1])
      case Raised => Raised
      case Returned(track) =>
        match ChordMeasureFor(m21, results[|results| - 1])
        case Raised => Raised
        case Returned(cm) => Returned(track + [cm])
  }

  /** The original parts, each wrapped unchanged, in their order. */
  function OriginalParts(parts: seq<Part>): seq<OutputPart>
  {
    MapSeq(p => OriginalPart(p), parts)
  }

  /** The new score: the chord track first, then every original part; an error if a copy raised. */
  function AssembledScore(m21: Music21, score: Score, results: seq<AnalysisResult>): Result<OutputScore, EngineError>
  {
    match ChordTrack(m21, results)
    case Raised => Failure(ChordCopyRaised)
    case Returned(track) => Success(OutputScore([ChordsPart(ChordsPartId, 0, track)] + OriginalParts(score.parts)))
  }

  /** Whether a chord measure carries the uncertainty marker. */
  predicate MarkedUncertain(cm: ChordMeasure)
  {
    exists k | 0 <= k < |cm.symbols| :: UncertainLyric in cm.symbols[k].symbol.lyrics
  }

  /**
   * Building a measure raises exactly when copying its symbol does. Otherwise the measure
   * keeps the number and signatures, and holds one symbol exactly when the analysis found
   * one: at offset 0, the symbol constructed from the analysed figure, with the marker
   * appended exactly when the measure was flagged. A copy whose own lyrics lack the
   * marker is marked exactly when the measure was flagged.
   */
  lemma ChordMeasureContents(m21: Music21, r: AnalysisResult)
    ensures ChordMeasureFor(m21, r).Raised? <==> CopyRaises(m21, r)
    ensures ChordMeasureFor(m21, r).Returned? ==>
      var cm := ChordMeasureFor(m21, r).value;
      && cm.number == r.measure.number
      && cm.timeSignature == r.measure.timeSignature
      && cm.keySignature == r.measure.keySignature
      && |cm.symbols| == (if r.symbol.Some? then 1 else 0)
      && (r.symbol.Some? ==>
        var copy := m21.chordSymbolFromFigure(r.symbol.value.figure).value;
        && cm.symbols[0].offset == 0.0
        && cm.symbols[0].symbol.figure == copy.figure
        && cm.symbols[0].symbol.lyrics == copy.lyrics + (if r.uncertain then [UncertainLyric] else [])
        && (UncertainLyric !in copy.lyrics ==> (MarkedUncertain(cm) <==> r.uncertain)))
      && (r.symbol.None? ==> !MarkedUncertain(cm))
  {
    if ChordMeasureFor(m21, r).Returned? && r.symbol.Some? {
      var cm := ChordMeasureFor(m21, r).value;
      if r.uncertain {
        assert UncertainLyric in cm.symbols[0].symbol.lyrics;
      }
    }
  }

  /**
   * The chord track raises exactly when some result's copy raises; otherwise it holds
   * the measure built for each result, at the result's position.
   */
  lemma {:induction false} ChordTrackAt(m21: Music21, results: seq<AnalysisResult>)
    ensures ChordTrack(m21, results).Raised? <==> exists i | 0 <= i < |results| :: CopyRaises(m21, results[i])
    ensures ChordTrack(m21, results).Returned? ==>
      && |ChordTrack(m21, results).value| == |results|
      && forall i | 0 <= i < |results| :: ChordMeasureFor(m21, results[i]) == Returned(ChordTrack(m21, results).value[i])
  {
    if results != [] {
      var n := |results| - 1;
      var init := results[..n];
      ChordTrackAt(m21, init);
      ChordMeasureContents(m21, results[n]);
      assert forall i | 0 <= i < |init| :: init[i] == results[i];
    }
  }

  /**
   * The chord track of a part's analysis is aligned with the part: it raises exactly when
   * some copy raises, and otherwise has one measure per measure, with the same numbers and
   * signatures, a symbol where a chord was found, and the marker on a measure with a found
   * chord and missing pitch data.
   */
  lemma ChordTrackAligned(m21: Music21, key: Option<Key>, melody: Part)
    ensures var results := MeasureResults(m21, key, melody.measures);
      var track := ChordTrack(m21, results);
      && (track.Raised? <==> exists i | 0 <= i < |results| :: CopyRaises(m21, results[i]))
      && |results| == |melody.measures|
      && (track.Returned? ==>
        && |track.value| == |melody.measures|
        && forall i | 0 <= i < |melody.measures| ::
          && track.value[i].number == melody.measures[i].number
          && track.value[i].timeSignature == melody.measures[i].timeSignature
          && track.value[i].keySignature == melody.measures[i].keySignature
          && (|track.value[i].symbols| > 0 <==> results[i].symbol.Some?)
          && (results[i].symbol.Some? && HasMissingPitch(melody.measures[i].events) ==> MarkedUncertain(track.value[i])))
  {
    var results := MeasureResults(m21, key, melody.measures);
    MeasureResultsAligned(m21, key, melody.measures);
    ChordTrackAt(m21, results);
    if ChordTrack(m21, results).Returned? {
      forall i | 0 <= i < |results|
        ensures var cm := ChordTrack(m21, results).value[i];
          && cm.number == results[i].measure.number
          && cm.timeSignature == results[i].measure.timeSignature
          && cm.keySignature == results[i].measure.keySignature
          && (|cm.symbols| > 0 <==> results[i].symbol.Some?)
          && (results[i].symbol.Some? && results[i].uncertain ==> MarkedUncertain(cm))
      {
        ChordMeasureContents(m21, results[i]);
      }
    }
  }

  /**
   * Builds the chord track measure by measure, stopping at the first copy that raises,
   * then the new score part by part.
   */
  method InsertChordsIntoScore(m21: Music21, score: Score, melody: Part, results: seq<AnalysisResult>)
    returns (out: Result<OutputScore, EngineError>)
    ensures out == AssembledScore(m21, score, results)
    ensures out.Failure? <==> exists i | 0 <= i < |results| :: CopyRaises(m21, results[i])
    ensures out.Failure? ==> out.error == ChordCopyRaised
    ensures out.Success? ==>
      && |out.value.parts| == |score.parts| + 1
      && out.value.parts[0] == ChordsPart(ChordsPartId, 0, ChordTrack(m21, results).value)
      && |out.value.parts[0].measures| == |results|
      && forall i | 0 <= i < |score.parts| :: out.value.parts[i + 1] == OriginalPart(score.parts[i])
  {
    ChordTrackAt(m21, results);
    var measures: seq<ChordMeasure> := [];
    for i := 0 to |results|
      invariant ChordTrack(m21, results[..i]) == Returned(measures)
    {
      assert results[..i + 1][..i] == results[..i];
      var r := results[i];
      var timeSignature: Option<TimeSignature> := None;
      if r.measure.timeSignature.Some? {
        timeSignature := r.measure.timeSignature;
      }
      var keySignature: Option<KeySignature> := None;
      if r.measure.keySignature.Some? {
        keySignature := r.measure.keySignature;
      }
      var symbols: seq<PlacedSymbol> := [];
      if r.symbol.Some? {
        var made := m21.chordSymbolFromFigure(r.symbol.value.figure);
        if made.Raised? {
          assert CopyRaises(m21, results[i]);
          return Failure(ChordCopyRaised);
        }
        var copy := made.value;
        if r.uncertain {
          copy := copy.(lyrics := copy.lyrics + [UncertainLyric]);
        }
        symbols := [PlacedSymbol(0.0, copy)];
      }
      var cm := ChordMeasure(r.measure.number, timeSignature, keySignature, symbols);
      assert ChordMeasureFor(m21, results[i]) == Returned(cm);
      measures := measures + [cm];
    }
    assert results[..|results|] == results;
    var parts := [ChordsPart(ChordsPartId, 0, measures)];
    for i := 0 to |score.parts|
      invariant parts == [ChordsPart(ChordsPartId, 0, measures)] + OriginalParts(score.parts[..i])
    {
      assert score.parts[..i + 1][..i] == score.parts[..i];
      parts := parts + [OriginalPart(score.parts[i])];
    }
    assert score.parts[..|score.parts|] == score.parts;
    MapSeqAt(p => OriginalPart(p), score.parts);
    out := Success(OutputScore(parts));
  }
}

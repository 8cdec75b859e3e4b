/**
 * One run of the engine over a parsed score: key estimate, melody selection,
 * per-measure analysis, chord-track assembly and the metadata the caller receives.
 */
module Pipeline {
  import opened Wrappers
  import opened ScoreModel
  import opened MelodySelection
  import opened Harmonization
  import opened Assembly

  /** What a run reports: the key's printed form, the measure counts, whether a PDF was written. */
  datatype Metadata = Metadata(key: Option<string>, measures: nat, uncertainMeasures: nat, pdfWritten: bool)

  datatype Run = Run(score: OutputScore, metadata: Metadata)

  /** The global key: the analysis result, or no key when the analysis raises. */
  function EstimateKey(m21: Music21, score: Score): Option<Key>
  {
    Caught(m21.analyzeKey(score))
  }

  /** The number of flagged results. */
  function CountUncertain(results: seq<AnalysisResult>): (n: nat)
    ensures n <= |results|
    ensures n == 0 <==> forall i | 0 <= i < |results| :: !results[i].uncertain
    ensures n == |results| <==> forall i | 0 <= i < |results| :: results[i].uncertain
  {
    if results == [] then 0
    else
      var init := results[..|results| - 1];
      assert forall i | 0 <= i < |init| :: init[i] == results[i];
      CountUncertain(init) + (if results[|results| - 1].uncertain then 1 else 0)
  }

  /** The indices of the flagged results. */
  function UncertainIndices(results: seq<AnalysisResult>): set<int>
  {
    set i | 0 <= i < |results| && results[i].uncertain
  }

  /** The count is the number of flagged positions. */
  lemma {:induction false} CountUncertainIsCardinality(results: seq<AnalysisResult>)
    ensures CountUncertain(results) == |UncertainIndices(results)|
  {
    if results != [] {
      var n := |results| - 1;
      var init := results[..n];
      CountUncertainIsCardinality(init);
      assert forall i | 0 <= i < |init| :: init[i] == results[i];
      if results[n].uncertain {
        assert UncertainIndices(results) == UncertainIndices(init) + {n};
      } else {
        assert UncertainIndices(results) == UncertainIndices(init);
      }
    }
  }

  /** The metadata of a run; a PDF counts as written only after a successful export. */
  function RunMetadata(key: Option<Key>, results: seq<AnalysisResult>, pdfExport: Option<bool>): Metadata
  {
    Metadata(
      if key.Some? then Some(key.value.name) else None,
      |results|,
      CountUncertain(results),
      pdfExport == Some(true))
  }

  /**
   * A whole run as a value: no parts, or a chord copy that raised, stops it with an error;
   * otherwise the new score with its metadata.
   */
  function RunOf(m21: Music21, score: Score, pdfExport: Option<bool>): Result<Run, EngineError>
  {
    var key := EstimateKey(m21, score);
    match SelectMelody(score.parts)
    case Failure(e) => Failure(e)
    case Success(melody) =>
      var results := MeasureResults(m21, key, melody.measures);
      match AssembledScore(m21, score, results)
      case Failure(e) => Failure(e)
      case Success(out) => Success(Run(out, RunMetadata(key, results, pdfExport)))
  }

  /**
   * A run without parts fails with NoPartsFound. Otherwise it fails exactly when copying
   * one of the melody's analysed symbols raises, and then with ChordCopyRaised.
   */
  lemma RunFailure(m21: Music21, score: Score, pdfExport: Option<bool>)
    ensures RunOf(m21, score, pdfExport) == Failure(NoPartsFound) <==> |score.parts| == 0
    ensures |score.parts| > 0 ==>
      var results := MeasureResults(m21, EstimateKey(m21, score), score.parts[MelodyIndex(score.parts)].measures);
      && (RunOf(m21, score, pdfExport).Failure? <==> exists i | 0 <= i < |results| :: CopyRaises(m21, results[i]))
      && (RunOf(m21, score, pdfExport).Failure? ==> RunOf(m21, score, pdfExport).error == ChordCopyRaised)
  {
    if |score.parts| > 0 {
      var melody := score.parts[MelodyIndex(score.parts)];
      var results := MeasureResults(m21, EstimateKey(m21, score), melody.measures);
      assert SelectMelody(score.parts) == Success(melody);
      assert RunOf(m21, score, pdfExport).Failure? <==> ChordTrack(m21, results).Raised?;
      ChordTrackAt(m21, results);
    }
  }

  /**
   * A run that completes counts the measures of the selected melody part and, among them,
   * those with missing pitch data, and reports the estimated key when the analysis
   * produced one and a PDF exactly after a successful export.
   */
  lemma RunMetadataCounts(m21: Music21, score: Score, pdfExport: Option<bool>)
    ensures RunOf(m21, score, pdfExport).Success? ==>
      var melody := score.parts[MelodyIndex(score.parts)];
      var meta := RunOf(m21, score, pdfExport).value.metadata;
      && meta.measures == |melody.measures|
      && meta.uncertainMeasures == |set i | 0 <= i < |melody.measures| && HasMissingPitch(melody.measures[i].events)|
      && (meta.key.Some? <==> m21.analyzeKey(score).Returned?)
      && (meta.pdfWritten <==> pdfExport == Some(true))
  {
    if |score.parts| > 0 {
      var melody := score.parts[MelodyIndex(score.parts)];
      var results := MeasureResults(m21, EstimateKey(m21, score), melody.measures);
      CountUncertainIsCardinality(results);
      MeasureResultsAligned(m21, EstimateKey(m21, score), melody.measures);
      assert UncertainIndices(results) == set i | 0 <= i < |melody.measures| && HasMissingPitch(melody.measures[i].events);
    }
  }

  /**
   * The new score of a successful run lists the chord track first, aligned with the melody
   * part's measures, and after it every original part unchanged and in order.
   */
  lemma RunLayout(m21: Music21, score: Score, pdfExport: Option<bool>)
    requires |score.parts| > 0
    ensures RunOf(m21, score, pdfExport).Success? ==>
      var out := RunOf(m21, score, pdfExport).value.score;
      var melody := score.parts[MelodyIndex(score.parts)];
      && |out.parts| == |score.parts| + 1
      && out.parts[0].ChordsPart?
      && out.parts[0].id == ChordsPartId
      && out.parts[0].staffLines == 0
      && |out.parts[0].measures| == |melody.measures|
      && (forall i | 0 <= i < |melody.measures| :: out.parts[0].measures[i].number == melody.measures[i].number)
      && (forall i | 0 <= i < |score.parts| :: out.parts[i + 1] == OriginalPart(score.parts[i]))
  {
    var melody := score.parts[MelodyIndex(score.parts)];
    ChordTrackAligned(m21, EstimateKey(m21, score), melody);
    MapSeqAt(p => OriginalPart(p), score.parts);
  }

  /**
   * With a library that raises on every call no symbol is found, so nothing is copied and
   * a score with parts always completes, with a chord track of empty measures.
   */
  lemma RaisingLibraryRunSucceeds(score: Score, pdfExport: Option<bool>)
    requires |score.parts| > 0
    ensures RunOf(RaisingLibrary, score, pdfExport).Success?
    ensures var out := RunOf(RaisingLibrary, score, pdfExport).value.score;
      forall i | 0 <= i < |out.parts[0].measures| :: out.parts[0].measures[i].symbols == []
  {
    var melody := score.parts[MelodyIndex(score.parts)];
    var key := EstimateKey(RaisingLibrary, score);
    var results := MeasureResults(RaisingLibrary, key, melody.measures);
    MapSeqAt(m => MeasureResult(RaisingLibrary, key, m), melody.measures);
    forall i | 0 <= i < |results|
      ensures results[i].symbol == None
    {
      RaisingLibraryYieldsNoSymbol(key, melody.measures[i]);
    }
    ChordTrackAt(RaisingLibrary, results);
    forall i | 0 <= i < |results|
      ensures ChordMeasureFor(RaisingLibrary, results[i]).Returned?
      ensures ChordMeasureFor(RaisingLibrary, results[i]).value.symbols == []
    {
      ChordMeasureContents(RaisingLibrary, results[i]);
    }
  }

  /** One run: the straight-line sequence of the engine's steps. */
  method ProcessMusicXmlFile(m21: Music21, score: Score, pdfExport: Option<bool>) returns (r: Result<Run, EngineError>)
    ensures r == RunOf(m21, score, pdfExport)
    ensures r == Failure(NoPartsFound) <==> |score.parts| == 0
    ensures r == Failure(ChordCopyRaised) <==>
      && |score.parts| > 0
      && var results := MeasureResults(m21, EstimateKey(m21, score), score.parts[MelodyIndex(score.parts)].measures);
        exists i | 0 <= i < |results| :: CopyRaises(m21, results[i])
    ensures r.Success? ==> r.value.metadata.measures == |r.value.score.parts[0].measures|
  {
    var scoreKey: Option<Key> := None;
    var analysis := m21.analyzeKey(score);
    if analysis.Returned? {
      scoreKey := Some(analysis.value);
    }
    var selected := ChooseMelodyPart(score);
    if selected.Failure? {
      return Failure(selected.error);
    }
    var melody := selected.value;
    var results := AnalyzeMeasures(m21, melody, scoreKey);
    var assembled := InsertChordsIntoScore(m21, score, melody, results);
    if assembled.Failure? {
      RunFailure(m21, score, pdfExport);
      return Failure(assembled.error);
    }
    var finalScore := assembled.value;
    var pdfWritten := false;
    if pdfExport.Some? && pdfExport.value {
      pdfWritten := true;
    }
    RunFailure(m21, score, pdfExport);
    var key: Option<string> := if scoreKey.Some? then Some(scoreKey.value.name) else None;
    r := Success(Run(finalScore, Metadata(key, |results|, CountUncertain(results), pdfWritten)));
  }
}

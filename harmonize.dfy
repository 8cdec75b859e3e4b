/**
 * Per-measure harmonisation: collect the pitches of a measure, flag missing pitch
 * data, and pick a chord symbol through a fallback chain whose first success wins.
 */
module Harmonization {
  import opened Wrappers
  import opened ScoreModel

  /** One analysis result per measure: the measure, its chord symbol if any, and the flag. */
  datatype AnalysisResult = AnalysisResult(measure: Measure, symbol: Option<ChordSymbol>, uncertain: bool)

  // ---------------------------------------------------------------- pitch collection

  /** The pitch a Note contributes, when it has one. */
  function NotePitch(e: Event): seq<Pitch>
  {
    if e.Note? && e.pitch.Some? then [e.pitch.value] else []
  }

  /** The pitches a Chord contributes. */
  function ChordTones(e: Event): seq<Pitch>
  {
    if e.Chord? then e.pitches else []
  }

  /** Defined Note pitches, in event order. */
  function NotePitches(events: seq<Event>): seq<Pitch>
  {
    if events == [] then [] else NotePitches(events[..|events| - 1]) + NotePitch(events[|events| - 1])
  }

  /** Chord pitches, chord after chord in event order. */
  function ChordPitches(events: seq<Event>): seq<Pitch>
  {
    if events == [] then [] else ChordPitches(events[..|events| - 1]) + ChordTones(events[|events| - 1])
  }

  /** The pitch collection of a measure: every Note pitch first, then every Chord pitch. */
  function CollectedPitches(events: seq<Event>): seq<Pitch>
  {
    NotePitches(events) + ChordPitches(events)
  }

  predicate PitchlessNote(e: Event)
  {
    e.Note? && e.pitch.None?
  }

  predicate EmptyChord(e: Event)
  {
    e.Chord? && |e.pitches| == 0
  }

  /** A Note without a pitch, or a Chord without pitches. */
  predicate LacksPitch(e: Event)
  {
    PitchlessNote(e) || EmptyChord(e)
  }

  predicate HasMissingPitch(events: seq<Event>)
  {
    exists i | 0 <= i < |events| :: LacksPitch(events[i])
  }

  /** Whether some Note among the events lacks a pitch, scanning in event order. */
  function AnyPitchlessNote(events: seq<Event>): bool
  {
    events != [] && (AnyPitchlessNote(events[..|events| - 1]) || PitchlessNote(events[|events| - 1]))
  }

  /** Whether some Chord among the events has no pitch, scanning in event order. */
  function AnyEmptyChord(events: seq<Event>): bool
  {
    events != [] && (AnyEmptyChord(events[..|events| - 1]) || EmptyChord(events[|events| - 1]))
  }

  /** The two scans together find a missing pitch exactly when the measure has one. */
  lemma {:induction false} MissingPitchScans(events: seq<Event>)
    ensures AnyPitchlessNote(events) || AnyEmptyChord(events) <==> HasMissingPitch(events)
  {
    if events != [] {
      var init := events[..|events| - 1];
      MissingPitchScans(init);
      assert forall i | 0 <= i < |init| :: init[i] == events[i];
      if LacksPitch(events[|events| - 1]) {
        assert HasMissingPitch(events);
      }
    }
  }

  // ---------------------------------------------------------------- the fallback stages

  /** Stage 1: spelling without forcing a triad; a raise leaves no symbol. */
  function NonForcedStage(m21: Music21, pitches: seq<Pitch>): Option<ChordSymbol>
  {
    match m21.chordSymbolFromChord(pitches, false)
    case Returned(Some(cs)) => Some(cs)
    case _ => None
  }

  /**
   * Stage 2: spelling with a forced triad. It shares stage 1's exception handler, so it
   * runs only when stage 1 returned no symbol without raising.
   */
  function ForcedTriadStage(m21: Music21, pitches: seq<Pitch>): Option<ChordSymbol>
  {
    match m21.chordSymbolFromChord(pitches, false)
    case Returned(None) =>
      (match m21.chordSymbolFromChord(pitches, true)
       case Returned(cs) => cs
       case Raised => None)
    case _ => None
  }

  /** The first event exactly at the start of the measure. */
  function FirstOnDownbeat(events: seq<Event>): (r: Option<Event>)
    ensures r.Some? ==> exists i | 0 <= i < |events| ::
      && r.value == events[i]
      && events[i].offset == 0.0
      && forall j | 0 <= j < i :: events[j].offset != 0.0
    ensures r.None? <==> forall i | 0 <= i < |events| :: events[i].offset != 0.0
  {
    if events == [] then None
    else if events[0].offset == 0.0 then Some(events[0])
    else FirstOnDownbeat(events[1..])
  }

  /**
   * The event whose pitch the Roman-numeral stage uses: the first one on the downbeat,
   * else the first one; none in an empty measure (the index raises and is caught).
   */
  function ReferenceEvent(events: seq<Event>): (r: Option<Event>)
    ensures r.None? <==> |events| == 0
    ensures (forall i | 0 <= i < |events| :: events[i].offset != 0.0) && |events| > 0 ==> r == Some(events[0])
    ensures (exists i | 0 <= i < |events| :: events[i].offset == 0.0) ==> exists i | 0 <= i < |events| ::
      && r == Some(events[i])
      && events[i].offset == 0.0
      && forall j | 0 <= j < i :: events[j].offset != 0.0
  {
    match FirstOnDownbeat(events)
    case Some(e) => Some(e)
    case None => if |events| > 0 then Some(events[0]) else None
  }

  /**
   * Stage 3: the Roman numeral of the reference pitch in the global key, turned into a
   * chord symbol. Without a key it is skipped; a reference Chord or a pitchless Note has
   * no single pitch, so the stage raises and is caught.
   */
  function RomanStage(m21: Music21, key: Option<Key>, events: seq<Event>): Option<ChordSymbol>
  {
    match key
    case None => None
    case Some(k) =>
      match ReferenceEvent(events)
      case Some(Note(Some(p), _)) =>
        (match m21.romanNumeralFigure(p, k)
         case Returned(figure) => Caught(m21.chordSymbolFromFigure(figure))
         case Raised => None)
      case _ => None
  }

  /** Stage 4: a chord symbol whose figure is the name of the first collected pitch. */
  function RootStage(m21: Music21, pitches: seq<Pitch>): Option<ChordSymbol>
  {
    if |pitches| == 0 then None else Caught(m21.chordSymbolFromFigure(pitches[0].name))
  }

  /** The stages in the order they are tried; none at all when no pitch was collected. */
  function Stages(m21: Music21, key: Option<Key>, events: seq<Event>, pitches: seq<Pitch>): seq<Option<ChordSymbol>>
  {
    if |pitches| == 0 then []
    else [NonForcedStage(m21, pitches), ForcedTriadStage(m21, pitches), RomanStage(m21, key, events), RootStage(m21, pitches)]
  }

  /** First success wins: the first candidate that holds a value. */
  function FirstSome<T>(candidates: seq<Option<T>>): Option<T>
  {
    if candidates == [] then None
    else if candidates[0].Some? then candidates[0]
    else FirstSome(candidates[1..])
  }

  /** The analysis of one measure. */
  function MeasureResult(m21: Music21, key: Option<Key>, m: Measure): AnalysisResult
  {
    var pitches := CollectedPitches(m.events);
    AnalysisResult(m, FirstSome(Stages(m21, key, m.events, pitches)), HasMissingPitch(m.events))
  }

  /** The images of a list under a function, position by position. */
  function MapSeq<A, B>(f: A -> B, xs: seq<A>): seq<B>
  {
    if xs == [] then [] else MapSeq(f, xs[..|xs| - 1]) + [f(xs[|xs| - 1])]
  }

  /** The map keeps the length and puts the image of the i-th element at position i. */
  lemma {:induction false} MapSeqAt<A, B>(f: A -> B, xs: seq<A>)
    ensures |MapSeq(f, xs)| == |xs|
    ensures forall i | 0 <= i < |xs| :: MapSeq(f, xs)[i] == f(xs[i])
  {
    if xs != [] {
      var init := xs[..|xs| - 1];
      MapSeqAt(f, init);
      assert forall i | 0 <= i < |init| :: init[i] == xs[i];
    }
  }

  /** The analysis of a part: one result per measure, in measure order. */
  function MeasureResults(m21: Music21, key: Option<Key>, measures: seq<Measure>): seq<AnalysisResult>
  {
    MapSeq(m => MeasureResult(m21, key, m), measures)
  }

  // ---------------------------------------------------------------- properties

  /** FirstSome yields x exactly when x is a candidate and every earlier candidate is empty. */
  lemma {:induction false} FirstSomeIsFirst<T>(candidates: seq<Option<T>>, x: T)
    ensures FirstSome(candidates) == Some(x) <==>
      exists k | 0 <= k < |candidates| :: candidates[k] == Some(x) && forall j | 0 <= j < k :: candidates[j].None?
  {
    if candidates != [] {
      var tail := candidates[1..];
      FirstSomeIsFirst(tail, x);
      if candidates[0].Some? {
        if candidates[0] == Some(x) {
          assert candidates[0] == Some(x);
        }
      } else {
        if FirstSome(candidates) == Some(x) {
          var k :| 0 <= k < |tail| && tail[k] == Some(x) && forall j | 0 <= j < k :: tail[j].None?;
          assert candidates[k + 1] == Some(x) && forall j | 0 <= j < k + 1 :: candidates[j].None?;
        }
        if exists k | 0 <= k < |candidates| :: candidates[k] == Some(x) && forall j | 0 <= j < k :: candidates[j].None? {
          var k :| 0 <= k < |candidates| && candidates[k] == Some(x) && forall j | 0 <= j < k :: candidates[j].None?;
          assert k > 0;
          assert tail[k - 1] == Some(x) && forall j | 0 <= j < k - 1 :: tail[j].None?;
        }
      }
    }
  }

  /** FirstSome over four candidates is the usual chain of conditionals. */
  lemma FirstSomeOfFour<T>(a: Option<T>, b: Option<T>, c: Option<T>, d: Option<T>)
    ensures FirstSome([a, b, c, d]) == if a.Some? then a else if b.Some? then b else if c.Some? then c else d
  {
    assert [a, b, c, d][1..] == [b, c, d];
    assert [b, c, d][1..] == [c, d];
    assert [c, d][1..] == [d];
    assert [d][1..] == [];
    assert FirstSome([d]) == d;
    assert FirstSome([c, d]) == if c.Some? then c else d;
    assert FirstSome([b, c, d]) == if b.Some? then b else if c.Some? then c else d;
  }

  /** FirstSome yields nothing exactly when every candidate is empty. */
  lemma {:induction false} FirstSomeNone<T>(candidates: seq<Option<T>>)
    ensures FirstSome(candidates).None? <==> forall k | 0 <= k < |candidates| :: candidates[k].None?
  {
    if candidates != [] {
      FirstSomeNone(candidates[1..]);
      assert forall k | 1 <= k < |candidates| :: candidates[k] == candidates[1..][k - 1];
    }
  }

  /** Every defined Note pitch, and only those, is collected from the Notes. */
  lemma {:induction false} NotePitchesMembers(events: seq<Event>, p: Pitch)
    ensures p in NotePitches(events) <==> exists i | 0 <= i < |events| :: events[i].Note? && events[i].pitch == Some(p)
  {
    if events != [] {
      var init := events[..|events| - 1];
      NotePitchesMembers(init, p);
      assert forall i | 0 <= i < |init| :: init[i] == events[i];
    }
  }

  /** Every Chord pitch, and only those, is collected from the Chords. */
  lemma {:induction false} ChordPitchesMembers(events: seq<Event>, p: Pitch)
    ensures p in ChordPitches(events) <==> exists i | 0 <= i < |events| :: events[i].Chord? && p in events[i].pitches
  {
    if events != [] {
      var init := events[..|events| - 1];
      ChordPitchesMembers(init, p);
      assert forall i | 0 <= i < |init| :: init[i] == events[i];
    }
  }

  /** No pitch is collected exactly when every event lacks a pitch. */
  lemma {:induction false} NoPitchesIff(events: seq<Event>)
    ensures |CollectedPitches(events)| == 0 <==> forall i | 0 <= i < |events| :: LacksPitch(events[i])
  {
    if events != [] {
      var init := events[..|events| - 1];
      NoPitchesIff(init);
      assert forall i | 0 <= i < |init| :: init[i] == events[i];
    }
  }

  /**
   * A part's analysis has one result per measure, in measure order: each records its own
   * measure and that measure's missing-pitch flag.
   */
  lemma MeasureResultsAligned(m21: Music21, key: Option<Key>, measures: seq<Measure>)
    ensures |MeasureResults(m21, key, measures)| == |measures|
    ensures forall i | 0 <= i < |measures| ::
      && MeasureResults(m21, key, measures)[i].measure == measures[i]
      && MeasureResults(m21, key, measures)[i].uncertain == HasMissingPitch(measures[i].events)
  {
    MapSeqAt(m => MeasureResult(m21, key, m), measures);
  }

  /**
   * A measure without collected pitches gets no chord symbol, and it is flagged exactly
   * when it holds some event at all (each of its events is then a pitchless Note or an empty Chord).
   */
  lemma NoPitchesNoSymbol(m21: Music21, key: Option<Key>, m: Measure)
    requires |CollectedPitches(m.events)| == 0
    ensures MeasureResult(m21, key, m).symbol == None
    ensures MeasureResult(m21, key, m).uncertain <==> |m.events| > 0
  {
    NoPitchesIff(m.events);
    if |m.events| > 0 {
      assert LacksPitch(m.events[0]);
    }
  }

  /**
   * The chord symbol of a measure is x exactly when some pitch was collected, some stage
   * produced x, and every stage before it produced nothing.
   */
  lemma ChosenStage(m21: Music21, key: Option<Key>, m: Measure, x: ChordSymbol)
    ensures var stages := Stages(m21, key, m.events, CollectedPitches(m.events));
      MeasureResult(m21, key, m).symbol == Some(x) <==>
        |CollectedPitches(m.events)| > 0 &&
        exists k | 0 <= k < 4 :: stages[k] == Some(x) && forall j | 0 <= j < k :: stages[j].None?
  {
    FirstSomeIsFirst(Stages(m21, key, m.events, CollectedPitches(m.events)), x);
  }

  /**
   * The root fallback: with some pitch collected and the spelling and Roman-numeral
   * stages empty, the symbol is the one constructed from the first collected pitch's name.
   */
  lemma RootFallback(m21: Music21, key: Option<Key>, m: Measure)
    requires |CollectedPitches(m.events)| > 0
    requires NonForcedStage(m21, CollectedPitches(m.events)) == None
    requires ForcedTriadStage(m21, CollectedPitches(m.events)) == None
    requires RomanStage(m21, key, m.events) == None
    ensures MeasureResult(m21, key, m).symbol == Caught(m21.chordSymbolFromFigure(CollectedPitches(m.events)[0].name))
  {
    var pitches := CollectedPitches(m.events);
    FirstSomeOfFour(NonForcedStage(m21, pitches), ForcedTriadStage(m21, pitches), RomanStage(m21, key, m.events), RootStage(m21, pitches));
  }

  /** A library every call of which raises. */
  const RaisingLibrary: Music21 :=
    Music21((ps, forceTriad) => Raised, (p, k) => Raised, figure => Raised, score => Raised)

  /**
   * Exceptions never escape the analysis: with a library that raises on every call, each
   * measure still gets a result, with no symbol and the flag its pitch data gives.
   */
  lemma RaisingLibraryYieldsNoSymbol(key: Option<Key>, m: Measure)
    ensures MeasureResult(RaisingLibrary, key, m) == AnalysisResult(m, None, HasMissingPitch(m.events))
  {
    var pitches := CollectedPitches(m.events);
    if |pitches| > 0 {
      var m21 := RaisingLibrary;
      assert RomanStage(m21, key, m.events) == None;
      FirstSomeOfFour(NonForcedStage(m21, pitches), ForcedTriadStage(m21, pitches), RomanStage(m21, key, m.events), RootStage(m21, pitches));
    }
  }

  // ---------------------------------------------------------------- the imperative engine

  /** The loop over the Notes: defined pitches are appended, a pitchless Note sets the flag. */
  method CollectNotePitches(events: seq<Event>) returns (pitches: seq<Pitch>, uncertain: bool)
    ensures pitches == NotePitches(events)
    ensures uncertain == AnyPitchlessNote(events)
  {
    pitches := [];
    uncertain := false;
    for i := 0 to |events|
      invariant pitches == NotePitches(events[..i])
      invariant uncertain == AnyPitchlessNote(events[..i])
    {
      assert events[..i + 1][..i] == events[..i];
      var e := events[i];
      if e.Note? {
        if e.pitch.None? {
          uncertain := true;
        } else {
          pitches := pitches + [e.pitch.value];
        }
      }
    }
    assert events[..|events|] == events;
  }

  /** The loop over the Chords: their pitches extend the collection, an empty Chord sets the flag. */
  method CollectChordPitches(events: seq<Event>, notePitches: seq<Pitch>, noteMissing: bool)
    returns (pitches: seq<Pitch>, uncertain: bool)
    ensures pitches == notePitches + ChordPitches(events)
    ensures uncertain == (noteMissing || AnyEmptyChord(events))
  {
    pitches := notePitches;
    uncertain := noteMissing;
    for i := 0 to |events|
      invariant pitches == notePitches + ChordPitches(events[..i])
      invariant uncertain == (noteMissing || AnyEmptyChord(events[..i]))
    {
      assert events[..i + 1][..i] == events[..i];
      var e := events[i];
      if e.Chord? {
        if |e.pitches| == 0 {
          uncertain := true;
        } else {
          pitches := pitches + e.pitches;
        }
      }
    }
    assert events[..|events|] == events;
  }

  /** The pitch collection of a measure: Notes first, then Chords; a missing pitch sets the flag. */
  method CollectPitches(m: Measure) returns (pitches: seq<Pitch>, uncertain: bool)
    ensures pitches == CollectedPitches(m.events)
    ensures uncertain == HasMissingPitch(m.events)
  {
    var notePitches, noteMissing := CollectNotePitches(m.events);
    pitches, uncertain := CollectChordPitches(m.events, notePitches, noteMissing);
    MissingPitchScans(m.events);
  }

  /** The analysis of one measure: collection, then the fallback chain reassigning the symbol. */
  method HarmonizeMeasure(m21: Music21, key: Option<Key>, m: Measure) returns (r: AnalysisResult)
    ensures r == MeasureResult(m21, key, m)
    ensures r.measure == m && r.uncertain == HasMissingPitch(m.events)
    ensures |CollectedPitches(m.events)| == 0 ==> r.symbol == None
  {
    var pitches, uncertain := CollectPitches(m);
    var cs: Option<ChordSymbol> := None;
    if |pitches| > 0 {
      var first := m21.chordSymbolFromChord(pitches, false);
      if first.Returned? {
        cs := first.value;
        if cs.None? {
          var second := m21.chordSymbolFromChord(pitches, true);
          cs := if second.Returned? then second.value else None;
        }
      }
    }
    if cs.None? && |pitches| > 0 && key.Some? {
      var reference := ReferenceEvent(m.events);
      cs := None;
      if reference.Some? && reference.value.Note? && reference.value.pitch.Some? {
        var rn := m21.romanNumeralFigure(reference.value.pitch.value, key.value);
        if rn.Returned? {
          cs := Caught(m21.chordSymbolFromFigure(rn.value));
        }
      }
    }
    if cs.None? && |pitches| > 0 {
      cs := Caught(m21.chordSymbolFromFigure(pitches[0].name));
    }
    r := AnalysisResult(m, cs, uncertain);
    if |pitches| > 0 {
      FirstSomeOfFour(NonForcedStage(m21, pitches), ForcedTriadStage(m21, pitches), RomanStage(m21, key, m.events), RootStage(m21, pitches));
    }
  }

  /** The analysis of the melody part, one result appended per measure. */
  method AnalyzeMeasures(m21: Music21, melody: Part, key: Option<Key>) returns (results: seq<AnalysisResult>)
    ensures results == MeasureResults(m21, key, melody.measures)
  {
    var measures := melody.measures;
    results := [];
    for i := 0 to |measures|
      invariant results == MeasureResults(m21, key, measures[..i])
    {
      assert measures[..i + 1][..i] == measures[..i];
      var r := HarmonizeMeasure(m21, key, measures[i]);
      results := results + [r];
    }
    assert measures[..|measures|] == measures;
  }
}

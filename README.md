# Chord-suggestion engine of a score-annotation service — a Dafny model

The service reads a score recognised from a scanned PDF and writes a new score in
which every measure carries a suggested chord symbol. Above the original staves, a
synthetic "Chords" part holds these symbols. Measures whose pitch data is incomplete
are marked "(uncertain)". This project models the engine in `process_score.py` and
proves properties of that model:

- **Melody selection** (`MelodySelection`): the part with the most Note objects
  wins. The scan uses a strict `>`, so on a tie the earliest part wins. A score
  without parts is an error.
- **Per-measure harmonisation** (`Harmonization`): it gathers the defined Note
  pitches first and the Chord pitches after them. A pitchless Note or an empty
  Chord sets the `uncertain` flag. A four-stage fallback chain picks the symbol, and
  the first stage that yields one wins:
  1. spelling without a forced triad;
  2. spelling with a forced triad;
  3. the Roman numeral of the reference note in the global key;
  4. the name of the first collected pitch.
- **Assembly** (`Assembly`): the engine builds one chord measure per analysis
  result. Each copies the measure number and the signatures. Where a symbol was
  found, the measure holds a copy of it at offset 0: a symbol constructed anew from
  its figure, with the marker appended when flagged. The new score lists the chord
  track first and then every original part in its original order.
- **One run** (`Pipeline`): the key estimate, the steps above, and the metadata.
  The metadata holds the key, the measure count, the count of uncertain measures
  and whether a PDF was written.

The music-theory library is a value of the datatype `ScoreModel.Music21`. It holds
four total functions: chord spelling, Roman-numeral figure, chord symbol from a
figure, and key analysis. Each returns `Call.Raised` where the library would raise.
Nothing is assumed about what they compute, so every property holds for every
library behaviour. The exception handlers of the source are `Caught`, or `match`
arms that map `Raised` to no value. They sit exactly where the source has its
`try`/`except` blocks:

- the two spelling calls share one handler, so a raise in the first skips the second;
- the Roman-numeral stage has its own handler;
- the root stage has its own handler;
- the key analysis has its own handler.

The copy of a chord symbol during assembly (`process_score.py:107`) has no handler.
When that construction raises, the run stops with `ChordCopyRaised`. A score without
parts stops it with `NoPartsFound` (`process_score.py:13-14`).

Each imperative function of the source is a `method` with the source's loops and
reassignments. A method is proved equal to a specification function, for example
`HarmonizeMeasure` to `MeasureResult` and `AnalyzeMeasures` to `MeasureResults`.
The properties are proved as lemmas about those functions. Because the model is made
of functions of the parsed score and the library, running it twice on the same input
gives the same labels and flags by construction.

Design decisions:

- **Offsets** are exact `real`s. The source's downbeat test `abs(offset - 0) < 1e-8`
  becomes `offset == 0.0`.
- **The reference event** of the Roman-numeral stage is the first event on the
  downbeat, or else the first event. When that event is a Chord or a pitchless
  Note, it has no single pitch, so the stage raises and the handler catches it.
- **A measure with no collected pitch** gets no chord symbol at all. This holds
  even when a global key is known, because `process_score.py:53`, `:65` and `:77`
  guard every stage with `len(pitches) > 0`. A measure whose events are all
  pitchless Notes or empty Chords is such a measure.
- **Note counts.** `process_score.py:18` counts every Note object of the part,
  pitchless ones included, and Chord objects not at all. The model counts the same.
- **The reference note.** `process_score.py:68-69` takes the first note whose offset
  is 0, or else the first note of the measure. The model makes the same choice.

## Model

| member | source | states |
|---|---|---|
| MelodySelection.ChooseMelodyPart | process_score.py:11-25 | fails exactly when the score has no parts; otherwise returns a part of the score whose note count is at least every part's and strictly above every earlier part's; equals `SelectMelody` |
| MelodySelection.MelodyIndex | process_score.py:16-23 | the left-to-right strict-`>` scan settles on an index inside the part list |
| MelodySelection.MelodyIndexIsFirstMax | process_score.py:16-23 | the scan's index has the maximum note count and every earlier part has strictly fewer (first wins on ties) |
| MelodySelection.FirstMaxUnique | process_score.py:21-23 | at most one index is the first maximum, so counts alone determine the choice |
| MelodySelection.SinglePartSelected | process_score.py:13-25 | a single-part score selects that part |
| MelodySelection.SelectedIsEarliestMaximum | process_score.py:16-23 | any part with the maximum count and no earlier part of equal count is the selected one (the 40-notes-versus-5 and the tie scenarios) |
| Harmonization.CollectPitches | process_score.py:39-51 | the collected pitches are all defined Note pitches followed by all Chord pitches, and the flag is set exactly when some Note lacks a pitch or some Chord has none |
| Harmonization.CollectNotePitches | process_score.py:42-46 | the loop over the Notes appends exactly the defined Note pitches in order and sets the flag exactly when some Note lacks a pitch |
| Harmonization.CollectChordPitches | process_score.py:47-51 | the loop over the Chords extends the collection by every Chord's pitches in order and sets the flag exactly when it was set or some Chord is empty |
| Harmonization.MissingPitchScans | process_score.py:39-51 | the two loops' flags together are set exactly when some event of the measure lacks a pitch, so collection never stops early |
| Harmonization.NotePitchesMembers | process_score.py:42-46 | a pitch is collected from the Notes exactly when some Note has that pitch; a pitchless Note does not stop collection |
| Harmonization.ChordPitchesMembers | process_score.py:47-51 | a pitch is collected from the Chords exactly when some Chord contains it |
| Harmonization.NoPitchesIff | process_score.py:39-53 | nothing is collected exactly when every event is a pitchless Note or an empty Chord |
| Harmonization.NoPitchesNoSymbol | process_score.py:52-53 | a measure with no collected pitch gets no symbol, and is flagged exactly when it holds some event |
| Harmonization.FirstOnDownbeat | process_score.py:68 | the event found is the first event of the measure at offset 0: it is at offset 0 and every earlier event is not; nothing is found exactly when no event is at offset 0 |
| Harmonization.ReferenceEvent | process_score.py:68-69 | the reference event is the first event at offset 0 when there is one, else the first event; there is none exactly for an empty measure |
| Harmonization.FirstSomeIsFirst | process_score.py:52-82 | the chain yields x exactly when some stage yields x and every earlier stage yields nothing |
| Harmonization.FirstSomeNone | process_score.py:52-82 | the chain yields nothing exactly when every stage yields nothing |
| Harmonization.FirstSomeOfFour | process_score.py:54-82 | over four stages the chain is the nested "if still None, try the next" |
| Harmonization.ChosenStage | process_score.py:52-82 | a measure's symbol is x exactly when pitches were collected and, of spelling, forced-triad spelling, the Roman numeral and the root name in that order, x is the first result present |
| Harmonization.RootFallback | process_score.py:76-82 | when pitches exist and the first three stages yield nothing, the symbol is the one built from the first collected pitch's name (none if that construction raises) |
| Harmonization.RaisingLibraryYieldsNoSymbol | process_score.py:54-82 | every stage's exception is caught: with a library that raises on every call, each measure still gets a result, with no symbol and its missing-pitch flag |
| Harmonization.HarmonizeMeasure | process_score.py:39-83 | the imperative chain yields `MeasureResult`: the measure itself, the flag from missing pitches, and no symbol when no pitch was collected |
| Harmonization.AnalyzeMeasures | process_score.py:28-84 | the loop appending one result per measure yields exactly the part's analysis `MeasureResults` |
| Harmonization.MeasureResultsAligned | process_score.py:33-37 | a part's analysis has one result per measure, in measure order; each records its own measure and that measure's missing-pitch flag |
| Harmonization.MapSeqAt | process_score.py:37-83 | the per-measure loop keeps the length and puts the result for the i-th measure at position i |
| Assembly.ChordMeasureContents | process_score.py:95-112 | building a chord measure raises exactly when copying the found symbol raises; otherwise it copies number and signatures and holds one symbol exactly when one was found, at offset 0, constructed from the analysed figure, with "(uncertain)" appended to its lyrics exactly when the measure was flagged |
| Assembly.ChordTrackAt | process_score.py:95-112 | the chord track raises exactly when some result's copy raises; otherwise it has one measure per result, the one built for that result, in order |
| Assembly.ChordTrackAligned | process_score.py:95-112 | the chord track of a part's analysis raises exactly when some copy raises; otherwise it has one measure per part measure, with matching numbers and signatures, a symbol exactly where a chord was found, and the marker wherever a found chord meets missing pitch data |
| Assembly.InsertChordsIntoScore | process_score.py:87-121 | fails with `ChordCopyRaised` exactly when some copy raises; otherwise the new score has the chord track ("Chords", no staff lines, one measure per result) first and then every original part, unchanged and in order |
| Pipeline.CountUncertain | process_score.py:180 | the uncertain count never exceeds the results, is zero exactly when none is flagged and full exactly when all are |
| Pipeline.CountUncertainIsCardinality | process_score.py:180 | the uncertain count is the number of flagged positions |
| Pipeline.RunFailure | process_score.py:136-150 | a run fails with `NoPartsFound` exactly when the score has no parts; otherwise it fails exactly when copying one of the melody's analysed symbols raises, and then with `ChordCopyRaised` |
| Pipeline.RunMetadataCounts | process_score.py:136-182 | in a completed run `measures` is the melody's measure count, `uncertain_measures` the number of its measures with missing pitch data, a key is reported exactly when the key analysis did not raise, and a PDF counts as written exactly after a successful export |
| Pipeline.RunLayout | process_score.py:144-150 | a completed run's score has the chord track first, with no staff lines and aligned with the melody's measure numbers, then every original part in order |
| Pipeline.RaisingLibraryRunSucceeds | process_score.py:54-112 | with a library that raises on every call, a score with parts always completes, with a chord track of measures without symbols |
| Pipeline.ProcessMusicXmlFile | process_score.py:124-182 | the imperative run equals `RunOf`; it fails with `NoPartsFound` exactly on a score without parts and with `ChordCopyRaised` exactly when a copy of an analysed symbol raises; it reports as many measures as the chord track holds |

## Left out

- `app.py` is not part of this model. It covers HTTP routes, upload checks,
  temporary directories, tokens, environment lookup and the recogniser subprocess.
  All of this is I/O and process orchestration.
- The input-file existence check and the parsing of the file
  (`process_score.py:129-133`) are left out. The model starts from the parsed
  `Score`.
- Writing MusicXML and PDF, and setting the renderer path in the library's global
  environment (`process_score.py:152-175`), are left out. The PDF export is the
  parameter `pdfExport`: `None` when no PDF was requested, otherwise whether the
  export succeeded.
- The internals of the music-theory library are left out: parsing, key analysis,
  chord spelling, Roman numerals and chord-symbol construction. They are the opaque
  fields of `Music21`. Their musical output, such as C-E-G spelling "C", cannot be
  stated here.
- Floating-point offsets are exact rationals (`real`). The tolerance `1e-8` of the
  downbeat test is not modelled.
- Nested streams (voices) inside a measure are not modelled. A measure is one flat
  event list, so the recursive element search and the non-recursive `notes` view
  see the same events.
- The fallback measure lookup at `process_score.py:34-36` is not modelled
  separately. It iterates the same Measure elements, so the model takes the
  measures of the part once.
- Logging, argument parsing and `main()` (`process_score.py:185-207`) are left out.
- Which library calls are made is not observable in the model, because the calls
  are pure functions. "A stage is not attempted" therefore appears only as "the
  result does not depend on it": no stage counts when no pitch was collected, and
  no later stage counts once one has produced a symbol.
- Rests are not modelled. No step of the engine looks at them: neither the note
  count nor the pitch collection nor the reference-note choice sees a rest.
- The new score and the chord part are built as values. The in-place appends and
  inserts on freshly created, unshared streams are not modelled as object updates.

/** Choosing the part that most likely carries the melody: the one with the most notes. */
module MelodySelection {
  import opened Wrappers
  import opened ScoreModel

  /** Number of Note objects among the events; pitchless notes count, chords do not. */
  function NotesIn(events: seq<Event>): nat
  {
    if events == [] then 0
    else NotesIn(events[..|events| - 1]) + (if events[|events| - 1].Note? then 1 else 0)
  }

  /** Number of Note objects anywhere in the part. */
  function NoteCount(p: Part): nat
  {
    MeasureNotes(p.measures)
  }

  function MeasureNotes(measures: seq<Measure>): nat
  {
    if measures == [] then 0
    else MeasureNotes(measures[..|measures| - 1]) + NotesIn(measures[|measures| - 1].events)
  }

  /** Part i has the largest note count, and every earlier part has strictly fewer notes. */
  ghost predicate IsFirstMax(parts: seq<Part>, i: int)
  {
    && 0 <= i < |parts|
    && (forall j | 0 <= j < |parts| :: NoteCount(parts[j]) <= NoteCount(parts[i]))
    && (forall j | 0 <= j < i :: NoteCount(parts[j]) < NoteCount(parts[i]))
  }

  /** The index a left-to-right scan with a strict `>` comparison settles on. */
  function MelodyIndex(parts: seq<Part>): (i: nat)
    requires |parts| > 0
    ensures i < |parts|
  {
    if |parts| == 1 then 0
    else
      var b := MelodyIndex(parts[..|parts| - 1]);
      if NoteCount(parts[|parts| - 1]) > NoteCount(parts[b]) then |parts| - 1 else b
  }

  /** The selection as a value: an error for a score without parts. */
  function SelectMelody(parts: seq<Part>): Result<Part, EngineError>
  {
    if |parts| == 0 then Failure(NoPartsFound) else Success(parts[MelodyIndex(parts)])
  }

  lemma {:induction false} MelodyIndexIsFirstMax(parts: seq<Part>)
    requires |parts| > 0
    ensures IsFirstMax(parts, MelodyIndex(parts))
  {
    if |parts| > 1 {
      var init := parts[..|parts| - 1];
      MelodyIndexIsFirstMax(init);
      assert forall j | 0 <= j < |init| :: init[j] == parts[j];
    }
  }

  /** At most one index is the first maximum, so the selection is determined by the counts. */
  lemma FirstMaxUnique(parts: seq<Part>, i: int, k: int)
    requires IsFirstMax(parts, i) && IsFirstMax(parts, k)
    ensures i == k
  {
    assert NoteCount(parts[k]) == NoteCount(parts[i]);
  }

  /** A score with a single part selects that part. */
  lemma SinglePartSelected(parts: seq<Part>)
    requires |parts| == 1
    ensures SelectMelody(parts) == Success(parts[0])
  {
  }

  /**
   * The selected part is the only one with the largest count when it is unique, and
   * on a tie the earliest part with that count wins.
   */
  lemma SelectedIsEarliestMaximum(parts: seq<Part>, j: int)
    requires 0 <= j < |parts|
    requires forall k | 0 <= k < |parts| :: NoteCount(parts[k]) <= NoteCount(parts[j])
    requires forall k | 0 <= k < j :: NoteCount(parts[k]) < NoteCount(parts[j])
    ensures SelectMelody(parts) == Success(parts[j])
  {
    MelodyIndexIsFirstMax(parts);
    FirstMaxUnique(parts, MelodyIndex(parts), j);
  }

  /** The melody part heuristic: scan the parts, keeping the first one with the most notes. */
  method ChooseMelodyPart(score: Score) returns (r: Result<Part, EngineError>)
    ensures r == SelectMelody(score.parts)
    ensures r.Failure? <==> |score.parts| == 0
    ensures r.Success? ==> exists i :: IsFirstMax(score.parts, i) && score.parts[i] == r.value
  {
    var parts := score.parts;
    if |parts| == 0 {
      return Failure(NoPartsFound);
    }
    var best: Option<Part> := None;
    var bestCount: int := -1;
    ghost var bestIndex: nat := 0;
    for i := 0 to |parts|
      invariant i == 0 ==> best == None && bestCount == -1
      invariant i > 0 ==> bestIndex < i && bestIndex == MelodyIndex(parts[..i])
      invariant i > 0 ==> best == Some(parts[bestIndex]) && bestCount == NoteCount(parts[bestIndex])
    {
      var nCount := NoteCount(parts[i]);
      assert parts[..i + 1][..i] == parts[..i];
      if nCount > bestCount {
        best := Some(parts[i]);
        bestCount := nCount;
        bestIndex := i;
      }
    }
    assert parts[..|parts|] == parts;
    MelodyIndexIsFirstMax(parts);
    r := Success(best.value);
  }
}

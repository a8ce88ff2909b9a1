/** Corrected versions of three handlers whose code as written misbehaves,
    each with the property its authors evidently meant it to have. */
module Corrections {
  import opened Values
  import opened Questions
  import opened NoteStore
  import opened Hotkeys
  import opened Navigation

  // ---------------------------------------------------------------------
  // Sequential "next" past the last question

  /** The sequential choice with the guard `i < n - 1`: "next" from the last
      question falls through to 0, the first question. */
  function SequentialIndexFixed(i: int, n: nat, isNext: bool): int {
    if i < n - 1 && isNext then i + 1
    else if i > 0 && !isNext then i - 1
    else 0
  }

  function NextIndexFixed(ordering: Ordering, i: int, n: nat, isNext: bool, roll: int): int {
    if ordering == Random then roll else SequentialIndexFixed(i, n, isNext)
  }

  function ChangeQuestionFixed(all: seq<Question>, v: View, isNext: bool, roll: int): View {
    if Gated(v) then v.(showAnswer := true)
    else MoveTo(all, v, NextIndexFixed(v.ordering, v.selectedQuestionIndex, |EligibleOf(all, v)|, isNext, roll))
  }

  /** "Next" moves forward and wraps from the last question to the first;
      "previous" moves back and stops at the first. */
  lemma SequentialIndexFixedSteps(i: int, n: nat, isNext: bool)
    requires 0 <= i < n
    ensures 0 <= SequentialIndexFixed(i, n, isNext) < n
    ensures isNext ==> SequentialIndexFixed(i, n, isNext) == (i + 1) % n
    ensures !isNext ==> SequentialIndexFixed(i, n, isNext) == if i > 0 then i - 1 else 0
  {
  }

  /** With the corrected guard every advance from a consistent, in-range
      state ends in one, with a question selected: nothing ever throws. */
  lemma FixedAdvanceKeepsInRange(all: seq<Question>, v: View, isNext: bool, roll: int)
    requires Consistent(all, v) && InRange(all, v)
    requires v.ordering == Random ==> IsRandomIndex(roll, |EligibleOf(all, v)|)
    ensures var w := ChangeQuestionFixed(all, v, isNext, roll);
      Consistent(all, w) && InRange(all, w) && w.selectedQuestion.Some?
  {
    if !Gated(v) && v.ordering == Sequential {
      SequentialIndexFixedSteps(v.selectedQuestionIndex, |EligibleOf(all, v)|, isNext);
    }
  }

  // ---------------------------------------------------------------------
  // The note field out of step with the displayed question

  /** The note field holds the stored note of the displayed question. */
  predicate NoteLoaded(v: View) {
    v.selectedQuestion.Some? ==> v.notes == GetData(v.store, NoteKey(v.selectedQuestion.value.record.ID))
  }

  /** As written: from start-up, with the gate on, the second press stores ""
      as the first question's note, whatever earlier sessions stored there. */
  lemma StartupAdvanceOverwritesFirstNote(all: seq<Question>, saved: Store, isNext: bool, roll: int)
    requires all != [] && Truthy(all[0].record.ID)
    ensures !NoteLoaded(Initial(all, saved)) <==> GetData(saved, NoteKey(all[0].record.ID)) != ""
    ensures var v1 := ChangeQuestion(all, Initial(all, saved), isNext, roll);
      var v2 := ChangeQuestion(all, v1, isNext, roll);
      GetData(v2.store, NoteKey(all[0].record.ID)) == ""
  {
    var v1 := ChangeQuestion(all, Initial(all, saved), isNext, roll);
    WriteThenGet(saved, NoteKey(all[0].record.ID), "");
  }

  /** Start-up that loads the first question's note. */
  function InitialFixed(all: seq<Question>, saved: Store): View {
    var v := Initial(all, saved);
    match v.selectedQuestion
    case Some(q) => v.(notes := GetData(saved, NoteKey(q.record.ID)))
    case None => v
  }

  /** A category change that saves the current note, as an advance does, and
      loads the note of the category's first question. */
  function CategoryChangeFixed(all: seq<Question>, v: View, c: Filter): View {
    var w := CategoryChange(all, v.(store := SaveNote(v)), c);
    match w.selectedQuestion
    case Some(q) => w.(notes := GetData(w.store, NoteKey(q.record.ID)))
    case None => w
  }

  /** Saving a note that was loaded and not edited changes nothing any key
      reads. */
  lemma SaveLoadedNoteKeepsStore(v: View, key: string)
    requires NoteLoaded(v)
    ensures GetData(SaveNote(v), key) == GetData(v.store, key)
  {
    match v.selectedQuestion
    case None =>
    case Some(q) =>
      if Truthy(q.record.ID) && key != NoteKey(q.record.ID) {
        WriteKeepsOtherKeys(v.store, NoteKey(q.record.ID), v.notes, key);
      }
  }

  /** The corrected start-up and category change put the note field in step
      with the displayed question, as an ungated advance already does. */
  lemma FixedHandlersLoadNote(all: seq<Question>, saved: Store, v: View, c: Filter, isNext: bool, roll: int)
    ensures NoteLoaded(InitialFixed(all, saved))
    ensures NoteLoaded(CategoryChangeFixed(all, v, c))
    ensures !Gated(v) ==> NoteLoaded(ChangeQuestion(all, v, isNext, roll))
  {
    if !Gated(v) {
      AdvanceSavesThenLoads(all, v, isNext, roll);
    }
  }

  /** Once in step, the note field stays in step through every step other
      than typing; with `FixedHandlersLoadNote` it is in step from start-up
      onward. */
  lemma NonTypingStepsKeepNoteLoaded(all: seq<Question>, v: View, isNext: bool, roll: int, key: string, o: Ordering)
    requires NoteLoaded(v)
    ensures NoteLoaded(ChangeQuestion(all, v, isNext, roll))
    ensures NoteLoaded(ChangeQuestionFixed(all, v, isNext, roll))
    ensures NoteLoaded(ToggleShowAnswer(v))
    ensures NoteLoaded(ToggleRevealAnswer(v))
    ensures NoteLoaded(SetOrdering(v, o))
    ensures NoteLoaded(KeyDownFixed(all, v, key, roll))
  {
    AdvanceKeepsNoteLoaded(all, v, isNext, roll);
    AdvanceKeepsNoteLoaded(all, v, false, roll);
    AdvanceKeepsNoteLoaded(all, v, true, roll);
  }

  /** An advance, as written or corrected, keeps the note field in step. */
  lemma AdvanceKeepsNoteLoaded(all: seq<Question>, v: View, isNext: bool, roll: int)
    requires NoteLoaded(v)
    ensures NoteLoaded(ChangeQuestion(all, v, isNext, roll))
    ensures NoteLoaded(ChangeQuestionFixed(all, v, isNext, roll))
  {
    if !Gated(v) {
      AdvanceSavesThenLoads(all, v, isNext, roll);
    }
  }

  /** While the note field is in step, an advance or a corrected category
      change without typing never changes what the store reads for any key;
      with the corrected handlers the note field is always in step. */
  lemma UneditedNavigationKeepsStore(all: seq<Question>, v: View, c: Filter, isNext: bool, roll: int, key: string)
    requires NoteLoaded(v)
    ensures GetData(ChangeQuestion(all, v, isNext, roll).store, key) == GetData(v.store, key)
    ensures GetData(CategoryChangeFixed(all, v, c).store, key) == GetData(v.store, key)
  {
    SaveLoadedNoteKeepsStore(v, key);
  }

  // ---------------------------------------------------------------------
  // The answer hotkey firing for ","

  /** The dispatch with key strings read as comma-separated names. */
  function KeyDownFixed(all: seq<Question>, v: View, key: string, roll: int): View {
    var k := ToLower(key);
    if MatchesName(PreviousKeys, k) then ChangeQuestion(all, v, false, roll)
    else if MatchesName(NextKeys, k) then ChangeQuestion(all, v, true, roll)
    else if MatchesName(AnswerKeys, k) then ToggleShowAnswer(v)
    else v
  }

  /** Read as names, every key does what the help text promises: "k" steps
      back, "j" forward, "n" and "f" flip the answer, and every other key
      (the comma among them) changes nothing. */
  lemma KeyDownFixedDispatch(all: seq<Question>, v: View, key: string, roll: int)
    ensures ToLower(key) == "k" ==> KeyDownFixed(all, v, key, roll) == ChangeQuestion(all, v, false, roll)
    ensures ToLower(key) == "j" ==> KeyDownFixed(all, v, key, roll) == ChangeQuestion(all, v, true, roll)
    ensures ToLower(key) in {"n", "f"} ==> KeyDownFixed(all, v, key, roll) == ToggleShowAnswer(v)
    ensures ToLower(key) !in {"k", "j", "n", "f"} ==> KeyDownFixed(all, v, key, roll) == v
  {
    SplitSingle('k');
    SplitSingle('j');
    MatchesNameAnswerKeys(ToLower(key));
  }

  /** The comma flips the answer as written and leaves the state alone once
      the key strings are read as names. */
  lemma KeyDownFixedAnswerKeys(all: seq<Question>, v: View, roll: int)
    ensures KeyDownFixed(all, v, "n", roll) == ToggleShowAnswer(v)
    ensures KeyDownFixed(all, v, "f", roll) == ToggleShowAnswer(v)
    ensures KeyDownFixed(all, v, ",", roll) == v
    ensures KeyDown(all, v, ",", roll) == ToggleShowAnswer(v)
  {
    assert ToLower("n") == "n";
    assert ToLower("f") == "f";
    assert ToLower(",") == ",";
    KeyDownFixedDispatch(all, v, "n", roll);
    KeyDownFixedDispatch(all, v, "f", roll);
    KeyDownFixedDispatch(all, v, ",", roll);
    SingleKeyIncludes('k', ",");
    SingleKeyIncludes('j', ",");
    CommaTogglesAnswer();
  }
}

/** The question-navigation state machine of the study app, as functions from
    the state before a handler runs to the state after it. Each handler is one
    atomic step that reads the state it was entered with. */
module Navigation {
  import opened Values
  import opened Questions
  import opened NoteStore
  import opened Hotkeys

  datatype Ordering = Random | Sequential

  /** What the handlers read and write: the component's state fields and the
      note store. */
  datatype View = View(
    ordering: Ordering,
    category: Filter,
    selectedQuestion: Option<Question>,
    selectedQuestionIndex: int,
    showAnswer: bool,
    revealAnswer: bool,
    notes: string,
    store: Store)

  /** The state on start-up, over the notes earlier sessions stored. */
  function Initial(all: seq<Question>, saved: Store): View {
    View(Sequential, All, Lookup(all, 0), 0, false, true, "", saved)
  }

  /** The store key of a question's note: `q-${ID}`. */
  function NoteKey(id: Scalar): string {
    "q-" + Render(id)
  }

  /** Questions with distinct numeric IDs keep their notes under distinct keys. */
  lemma NoteKeyInjective(m: nat, n: nat)
    ensures NoteKey(Num(m)) == NoteKey(Num(n)) <==> m == n
  {
    if NoteKey(Num(m)) == NoteKey(Num(n)) {
      assert NoteKey(Num(m))[2..] == Decimal(m);
      assert NoteKey(Num(n))[2..] == Decimal(n);
      DecimalInjective(m, n);
    }
  }

  /** The values `Math.floor(Math.random() * n)` can take. */
  predicate IsRandomIndex(k: int, n: nat) {
    if n == 0 then k == 0 else 0 <= k < n
  }

  /** The sequential choice of the next index, as written: "next" moves on
      whenever `i <= n`, "previous" moves back when `i > 0`, and anything else
      falls through to 0. */
  function SequentialIndex(i: int, n: nat, isNext: bool): int {
    if i <= n && isNext then i + 1
    else if i > 0 && !isNext then i - 1
    else 0
  }

  /** The next index for either ordering; `roll` is the random draw. */
  function NextIndex(ordering: Ordering, i: int, n: nat, isNext: bool, roll: int): int {
    if ordering == Random then roll else SequentialIndex(i, n, isNext)
  }

  /** The reveal gate is closed: an advance only shows the answer. */
  predicate Gated(v: View) {
    v.revealAnswer && !v.showAnswer
  }

  function EligibleOf(all: seq<Question>, v: View): seq<Question> {
    Eligible(all, v.category)
  }

  /** The store after the current note is saved; a question without a truthy
      ID saves nothing. */
  function SaveNote(v: View): Store {
    match v.selectedQuestion
    case Some(q) =>
      if Truthy(q.record.ID) then WriteData(v.store, NoteKey(q.record.ID), v.notes) else v.store
    case None => v.store
  }

  /** Selecting the question at `j` (`undefined` when out of range), closing
      the gate again and loading the new question's note from the store. When
      there is no question at `j`, reading its ID throws before the note is
      loaded; the updates issued before it stand. */
  function SelectAt(all: seq<Question>, v: View, j: int): View {
    var next := Lookup(EligibleOf(all, v), j);
    v.(selectedQuestionIndex := j,
       selectedQuestion := next,
       showAnswer := if v.revealAnswer && v.showAnswer then false else v.showAnswer,
       notes := match next
                case None => v.notes
                case Some(q) => GetData(v.store, NoteKey(q.record.ID)))
  }

  /** An ungated advance to index `j`: save the note, then select the
      question at `j`. */
  function MoveTo(all: seq<Question>, v: View, j: int): View {
    SelectAt(all, v.(store := SaveNote(v)), j)
  }

  /** `handleChangeQuestionClick(isNext)`. */
  function ChangeQuestion(all: seq<Question>, v: View, isNext: bool, roll: int): View {
    if Gated(v) then v.(showAnswer := true)
    else MoveTo(all, v, NextIndex(v.ordering, v.selectedQuestionIndex, |EligibleOf(all, v)|, isNext, roll))
  }

  /** The advance reads the ID of an `undefined` question. */
  predicate Throws(all: seq<Question>, v: View, isNext: bool, roll: int) {
    && !Gated(v)
    && Lookup(EligibleOf(all, v), NextIndex(v.ordering, v.selectedQuestionIndex, |EligibleOf(all, v)|, isNext, roll)).None?
  }

  /** `handleCategoryChangeClick(c)`; the first question is found by filtering
      the whole dataset again. */
  function CategoryChange(all: seq<Question>, v: View, c: Filter): View {
    v.(category := c,
       selectedQuestionIndex := 0,
       selectedQuestion := if c == All then Lookup(all, 0) else Lookup(FilterCategory(all, c.category), 0))
  }

  /** The "show answer" checkbox and the answer hotkey. */
  function ToggleShowAnswer(v: View): View {
    v.(showAnswer := !v.showAnswer)
  }

  /** The "reveal before advancing" checkbox. */
  function ToggleRevealAnswer(v: View): View {
    v.(revealAnswer := !v.revealAnswer)
  }

  /** The "random" and "sequential" buttons. */
  function SetOrdering(v: View, o: Ordering): View {
    v.(ordering := o)
  }

  /** Typing in the notes field. */
  function EditNotes(v: View, text: string): View {
    v.(notes := text)
  }

  /** A key press, dispatched to the listener whose key string includes the
      lower-cased key (at most one does). */
  function KeyDown(all: seq<Question>, v: View, key: string, roll: int): View {
    var k := ToLower(key);
    if Includes(PreviousKeys, k) then ChangeQuestion(all, v, false, roll)
    else if Includes(NextKeys, k) then ChangeQuestion(all, v, true, roll)
    else if Includes(AnswerKeys, k) then ToggleShowAnswer(v)
    else v
  }

  predicate KeyDownThrows(all: seq<Question>, v: View, key: string, roll: int) {
    var k := ToLower(key);
    if Includes(PreviousKeys, k) then Throws(all, v, false, roll)
    else if Includes(NextKeys, k) then Throws(all, v, true, roll)
    else false
  }

  // ---------------------------------------------------------------------
  // State invariants

  /** The selected question is the eligible question at the selected index
      (or `undefined` when the index is out of range). */
  predicate Consistent(all: seq<Question>, v: View) {
    v.selectedQuestion == Lookup(EligibleOf(all, v), v.selectedQuestionIndex)
  }

  /** The selected index points at an eligible question. */
  predicate InRange(all: seq<Question>, v: View) {
    0 <= v.selectedQuestionIndex < |EligibleOf(all, v)|
  }

  lemma InitialIsConsistent(all: seq<Question>, saved: Store)
    ensures Consistent(all, Initial(all, saved))
    ensures InRange(all, Initial(all, saved)) <==> |all| > 0
    ensures Initial(all, saved).notes == ""
  {
  }

  // ---------------------------------------------------------------------
  // Category change

  /** A category change selects the first question of the new eligible list
      (`undefined` when it is empty) at index 0, and leaves the answer flags,
      the ordering, the note text and the store as they were. */
  lemma CategoryChangeSelectsFirst(all: seq<Question>, v: View, c: Filter)
    ensures var w := CategoryChange(all, v, c);
      && w.category == c
      && w.selectedQuestionIndex == 0
      && w.selectedQuestion == Lookup(Eligible(all, c), 0)
      && Consistent(all, w)
      && (InRange(all, w) <==> Eligible(all, c) != [])
      && w.showAnswer == v.showAnswer && w.revealAnswer == v.revealAnswer
      && w.ordering == v.ordering && w.notes == v.notes && w.store == v.store
  {
  }

  // ---------------------------------------------------------------------
  // The reveal gate

  /** With the gate closed, an advance only shows the answer. */
  lemma GatedAdvanceOnlyReveals(all: seq<Question>, v: View, isNext: bool, roll: int)
    requires Gated(v)
    ensures ChangeQuestion(all, v, isNext, roll) == v.(showAnswer := true)
    ensures !Throws(all, v, isNext, roll)
  {
  }

  /** Two presses with the gate closed: the first reveals, the second moves to
      the index the first would have moved to without the gate, and the gate
      is closed again. */
  lemma TwoPressAdvance(all: seq<Question>, v: View, isNext: bool, roll: int)
    requires Gated(v)
    ensures var v1 := ChangeQuestion(all, v, isNext, roll);
      var v2 := ChangeQuestion(all, v1, isNext, roll);
      && v1.selectedQuestionIndex == v.selectedQuestionIndex
      && v1.selectedQuestion == v.selectedQuestion
      && v1.notes == v.notes && v1.store == v.store
      && !Gated(v1)
      && v2.selectedQuestionIndex
         == NextIndex(v.ordering, v.selectedQuestionIndex, |EligibleOf(all, v)|, isNext, roll)
      && Gated(v2)
  {
  }

  // ---------------------------------------------------------------------
  // The index arithmetic

  /** "Previous" steps back by one and stops at 0. */
  lemma SequentialPrevious(i: int, n: nat)
    requires i >= 0
    ensures SequentialIndex(i, n, false) == if i > 0 then i - 1 else 0
  {
  }

  /** "Next" steps forward whenever `i <= n`, so also from the last index. */
  lemma SequentialNext(i: int, n: nat)
    requires 0 <= i <= n
    ensures SequentialIndex(i, n, true) == i + 1
  {
  }

  // ---------------------------------------------------------------------
  // An ungated advance

  /** After any advance the selection agrees with the selected index. */
  lemma AdvanceKeepsConsistent(all: seq<Question>, v: View, isNext: bool, roll: int)
    ensures !Gated(v) ==> Consistent(all, ChangeQuestion(all, v, isNext, roll))
    ensures Consistent(all, v) ==> Consistent(all, ChangeQuestion(all, v, isNext, roll))
  {
  }

  /** A random draw over a non-empty list lands on an eligible question. */
  lemma RandomAdvanceInRange(all: seq<Question>, v: View, isNext: bool, roll: int)
    requires v.ordering == Random && !Gated(v)
    requires IsRandomIndex(roll, |EligibleOf(all, v)|)
    ensures var w := ChangeQuestion(all, v, isNext, roll);
      (InRange(all, w) <==> EligibleOf(all, v) != [])
      && (Throws(all, v, isNext, roll) <==> EligibleOf(all, v) == [])
  {
  }

  /** From an in-range index, a sequential advance stays in range except for
      "next" at the last question, which selects index `n` (no question) and
      throws. */
  lemma SequentialAdvanceInRange(all: seq<Question>, v: View, isNext: bool)
    requires v.ordering == Sequential && !Gated(v) && InRange(all, v)
    ensures var w := ChangeQuestion(all, v, isNext, 0);
      var n := |EligibleOf(all, v)|;
      && (InRange(all, w) <==> !(isNext && v.selectedQuestionIndex == n - 1))
      && (Throws(all, v, isNext, 0) <==> !InRange(all, w))
  {
  }

  /** "Next" at the last question: the index becomes the list's length, no
      question is selected, the advance throws and the note text stays. */
  lemma NextFromLastQuestion(all: seq<Question>, v: View, roll: int)
    requires v.ordering == Sequential && !Gated(v)
    requires EligibleOf(all, v) != []
    requires v.selectedQuestionIndex == |EligibleOf(all, v)| - 1
    ensures var w := ChangeQuestion(all, v, true, roll);
      && w.selectedQuestionIndex == |EligibleOf(all, v)|
      && w.selectedQuestion == None
      && w.notes == v.notes
      && !InRange(all, w)
    ensures Throws(all, v, true, roll)
  {
  }

  /** "Next" from beyond the list's length falls through to the 0 default. */
  lemma SequentialNextPastEnd(i: int, n: nat)
    requires i > n
    ensures SequentialIndex(i, n, true) == 0
  {
  }

  /** With the gate off, "next" pressed three times from the last question
      throws twice, at indices `n` and `n + 1`, and the third press lands on
      the first question: as written the sequence wraps only after two
      throws. */
  lemma NextPastEndWraps(all: seq<Question>, v: View, roll: int)
    requires v.ordering == Sequential && !v.revealAnswer
    requires EligibleOf(all, v) != []
    requires v.selectedQuestionIndex == |EligibleOf(all, v)| - 1
    ensures var n := |EligibleOf(all, v)|;
      var v1 := ChangeQuestion(all, v, true, roll);
      var v2 := ChangeQuestion(all, v1, true, roll);
      var v3 := ChangeQuestion(all, v2, true, roll);
      && Throws(all, v, true, roll) && v1.selectedQuestionIndex == n
      && Throws(all, v1, true, roll) && v2.selectedQuestionIndex == n + 1
      && !Throws(all, v2, true, roll) && v3.selectedQuestionIndex == 0
      && v3.selectedQuestion == Some(EligibleOf(all, v)[0])
  {
    var n := |EligibleOf(all, v)|;
    var v1 := ChangeQuestion(all, v, true, roll);
    var v2 := ChangeQuestion(all, v1, true, roll);
    SequentialNextPastEnd(v2.selectedQuestionIndex, n);
  }

  /** After an ungated advance the answer is hidden again when the gate is
      on, and otherwise keeps its visibility. */
  lemma AdvanceResetsGate(all: seq<Question>, v: View, isNext: bool, roll: int)
    requires !Gated(v)
    ensures ChangeQuestion(all, v, isNext, roll).showAnswer
         == if v.revealAnswer then false else v.showAnswer
  {
  }

  /** An ungated advance first saves the note under the old question's key
      (only when its ID is truthy), then reads the new question's note from
      the store as it is after that save. */
  lemma AdvanceSavesThenLoads(all: seq<Question>, v: View, isNext: bool, roll: int)
    requires !Gated(v)
    ensures var w := ChangeQuestion(all, v, isNext, roll);
      && (v.selectedQuestion.Some? && Truthy(v.selectedQuestion.value.record.ID)
          ==> w.store == WriteData(v.store, NoteKey(v.selectedQuestion.value.record.ID), v.notes))
      && (!(v.selectedQuestion.Some? && Truthy(v.selectedQuestion.value.record.ID))
          ==> w.store == v.store)
      && (w.selectedQuestion.Some?
          ==> w.notes == GetData(w.store, NoteKey(w.selectedQuestion.value.record.ID)))
      && (w.selectedQuestion.None? ==> w.notes == v.notes)
  {
  }

  /** Because the save comes before the load, moving to a question with the
      same ID (a random draw can repeat) shows the text just typed. */
  lemma AdvanceToSameIdKeepsNotes(all: seq<Question>, v: View, isNext: bool, roll: int)
    requires !Gated(v)
    requires v.selectedQuestion.Some? && Truthy(v.selectedQuestion.value.record.ID)
    requires var w := ChangeQuestion(all, v, isNext, roll);
      w.selectedQuestion.Some? && w.selectedQuestion.value.record.ID == v.selectedQuestion.value.record.ID
    ensures ChangeQuestion(all, v, isNext, roll).notes == v.notes
  {
    var id := v.selectedQuestion.value.record.ID;
    WriteThenGet(v.store, NoteKey(id), v.notes);
  }

  /** A category change keeps the note text of the question left behind, and
      the next advance saves it under the key of the category's first
      question. */
  lemma CategoryChangeThenAdvance(all: seq<Question>, v: View, c: Filter, isNext: bool, roll: int)
    requires !Gated(v)
    requires Eligible(all, c) != [] && Truthy(Eligible(all, c)[0].record.ID)
    ensures ChangeQuestion(all, CategoryChange(all, v, c), isNext, roll).store
         == WriteData(v.store, NoteKey(Eligible(all, c)[0].record.ID), v.notes)
  {
  }

  // ---------------------------------------------------------------------
  // Toggles

  lemma ToggleShowAnswerTwice(v: View)
    ensures ToggleShowAnswer(ToggleShowAnswer(v)) == v
    ensures ToggleShowAnswer(v).showAnswer != v.showAnswer
  {
  }

  lemma ToggleRevealAnswerTwice(v: View)
    ensures ToggleRevealAnswer(ToggleRevealAnswer(v)) == v
    ensures ToggleRevealAnswer(v).revealAnswer != v.revealAnswer
  {
  }

  /** For every non-empty key: "k" steps back, "j" steps forward, "n", "f",
      and the other substrings of "n,f" (the comma among them) flip the
      answer; any other key changes nothing. */
  lemma KeyDownDispatch(all: seq<Question>, v: View, key: string, roll: int)
    requires key != ""
    ensures ToLower(key) == "k" ==> KeyDown(all, v, key, roll) == ChangeQuestion(all, v, false, roll)
    ensures ToLower(key) == "j" ==> KeyDown(all, v, key, roll) == ChangeQuestion(all, v, true, roll)
    ensures ToLower(key) in {"n", "f", ",", "n,", ",f", "n,f"} ==> KeyDown(all, v, key, roll) == ToggleShowAnswer(v)
    ensures ToLower(key) !in {"k", "j", "n", ",", "f", "n,", ",f", "n,f"} ==> KeyDown(all, v, key, roll) == v
  {
    var k := ToLower(key);
    SingleKeyIncludes('k', k);
    SingleKeyIncludes('j', k);
    AnswerKeysIncludes(k);
  }
}

/** The `App` component: its state fields and the handlers that update them,
    each a step that runs to completion on the state it was entered with. */
module Component {
  import opened Values
  import opened Questions
  import opened NoteStore
  import opened Hotkeys
  import opened Navigation

  class App {
    const allQuestions: seq<Question>

    var ordering: Ordering
    var category: Filter
    var selectedQuestion: Option<Question>
    var selectedQuestionIndex: int
    var showAnswer: bool
    var revealAnswer: bool
    var notes: string
    /** The note store the handlers write to and read from. */
    var store: Store

    function Snapshot(): View
      reads this
    {
      View(ordering, category, selectedQuestion, selectedQuestionIndex, showAnswer, revealAnswer, notes, store)
    }

    /** `eligibleQuestions`, recomputed from the current category. */
    function EligibleQuestions(): seq<Question>
      reads this
    {
      Eligible(allQuestions, category)
    }

    /** Mounting the component over the loaded datasets and a store holding
        the notes of earlier sessions. */
    constructor (data: Datasets, saved: Store)
      ensures allQuestions == AllQuestions(data)
      ensures Snapshot() == Initial(allQuestions, saved)
    {
      allQuestions := AllQuestions(data);
      ordering := Sequential;
      category := All;
      selectedQuestion := Lookup(AllQuestions(data), 0);
      selectedQuestionIndex := 0;
      showAnswer := false;
      revealAnswer := true;
      notes := "";
      store := saved;
    }

    /** `handleCategoryChangeClick(c)`. */
    method CategoryChangeClick(c: Filter)
      modifies this
      ensures Snapshot() == CategoryChange(allQuestions, old(Snapshot()), c)
    {
      category := c;
      selectedQuestionIndex := 0;
      selectedQuestion :=
        if c == All then Lookup(allQuestions, 0)
        else Lookup(FilterCategory(allQuestions, c.category), 0);
    }

    /** `handleChangeQuestionClick(isNext)`; `roll` is the value of
        `Math.floor(Math.random() * eligibleQuestions.length)` on this call.
        `thrown` reports the TypeError of reading the ID of `undefined`. */
    method ChangeQuestionClick(isNext: bool, roll: int) returns (thrown: bool)
      requires ordering == Random ==> IsRandomIndex(roll, |EligibleQuestions()|)
      modifies this
      ensures Snapshot() == ChangeQuestion(allQuestions, old(Snapshot()), isNext, roll)
      ensures thrown == Throws(allQuestions, old(Snapshot()), isNext, roll)
    {
      if revealAnswer && !showAnswer {
        showAnswer := true;
        return false;
      }

      SaveCurrentNote();

      var eligible := EligibleQuestions();
      var nextQuestionIndex := 0;
      if ordering == Random {
        nextQuestionIndex := roll;
      } else {
        if selectedQuestionIndex <= |eligible| && isNext {
          nextQuestionIndex := selectedQuestionIndex + 1;
        } else if selectedQuestionIndex > 0 && !isNext {
          nextQuestionIndex := selectedQuestionIndex - 1;
        }
      }
      thrown := SelectQuestion(nextQuestionIndex);
    }

    /** Saving the note field under the key of the displayed question, when
        it has a truthy ID. */
    method SaveCurrentNote()
      modifies this
      ensures Snapshot() == old(Snapshot()).(store := SaveNote(old(Snapshot())))
    {
      if selectedQuestion.Some? && Truthy(selectedQuestion.value.record.ID) {
        store := WriteData(store, NoteKey(selectedQuestion.value.record.ID), notes);
      }
    }

    /** The rest of `handleChangeQuestionClick` once the note is saved and the
        index chosen: select the question at `j`, close the gate and load the
        new question's note; `thrown` reports reading the ID of `undefined`. */
    method SelectQuestion(j: int) returns (thrown: bool)
      modifies this
      ensures Snapshot() == SelectAt(allQuestions, old(Snapshot()), j)
      ensures thrown <==> Lookup(old(EligibleQuestions()), j).None?
    {
      var nextQuestion := Lookup(EligibleQuestions(), j);
      selectedQuestionIndex := j;
      selectedQuestion := nextQuestion;

      if revealAnswer && showAnswer {
        showAnswer := false;
      }

      if nextQuestion == None {
        thrown := true;
      } else {
        notes := GetData(store, NoteKey(nextQuestion.value.record.ID));
        thrown := false;
      }
    }

    /** The "show answer" checkbox and the "n,f" hotkey. */
    method ToggleShowAnswerClick()
      modifies this
      ensures Snapshot() == ToggleShowAnswer(old(Snapshot()))
    {
      showAnswer := !showAnswer;
    }

    /** The "reveal before advancing" checkbox. */
    method ToggleRevealAnswerClick()
      modifies this
      ensures Snapshot() == ToggleRevealAnswer(old(Snapshot()))
    {
      revealAnswer := !revealAnswer;
    }

    /** The "random" and "sequential" buttons. */
    method SetOrderingClick(o: Ordering)
      modifies this
      ensures Snapshot() == SetOrdering(old(Snapshot()), o)
    {
      ordering := o;
    }

    /** Typing in the notes field. */
    method NotesChange(text: string)
      modifies this
      ensures Snapshot() == EditNotes(old(Snapshot()), text)
    {
      notes := text;
    }

    /** A key press: each of the three listeners tests the lower-cased key
        against its key string; a key press always has a non-empty key. */
    method KeyPress(key: string, roll: int) returns (thrown: bool)
      requires key != ""
      requires ordering == Random ==> IsRandomIndex(roll, |EligibleQuestions()|)
      modifies this
      ensures Snapshot() == KeyDown(allQuestions, old(Snapshot()), key, roll)
      ensures thrown == KeyDownThrows(allQuestions, old(Snapshot()), key, roll)
    {
      var k := ToLower(key);
      AtMostOneListener(k);
      thrown := false;
      if Includes(PreviousKeys, k) {
        thrown := ChangeQuestionClick(false, roll);
      }
      if Includes(NextKeys, k) {
        thrown := ChangeQuestionClick(true, roll);
      }
      if Includes(AnswerKeys, k) {
        ToggleShowAnswerClick();
      }
    }
  }

  /** Two presses of "next" from start-up with the gate on: the first shows
      the answer of the first question, the second moves to the second
      question, hides the answer, saves the first question's note and loads
      the second's. */
  method RevealThenAdvance(data: Datasets, saved: Store) returns (app: App)
    requires |AllQuestions(data)| >= 2
    ensures app.selectedQuestionIndex == 1
    ensures app.selectedQuestion == Some(AllQuestions(data)[1])
    ensures !app.showAnswer
    ensures app.notes == GetData(app.store, NoteKey(AllQuestions(data)[1].record.ID))
  {
    app := new App(data, saved);
    var thrown := app.ChangeQuestionClick(true, 0);
    assert app.showAnswer && app.selectedQuestionIndex == 0 && !thrown;
    thrown := app.ChangeQuestionClick(true, 0);
    assert !thrown;
  }
}

# Question navigation of the aviation-theory flashcard app, in Dafny

The app shows multiple-choice questions from five category lists (aerodynamics,
legislation, materials, meteorology, practice). The user filters by category,
steps through the questions in order or at random, reveals the correct answer,
and keeps a free-text note per question in a key-value store. This project
models the `App` component's navigation logic and proves what it does:

- `values.dfy` (`Values`): the JavaScript value rules the component relies on.
  These are `undefined`, truthiness of an `ID`, `${…}` rendering of numbers and
  strings, and array indexing past the end.
- `questions.dfy` (`Questions`): the dataset (`allQuestions`) and the category
  filter (`eligibleQuestions`).
- `note_store.dfy` (`NoteStore`): the note store as a map from key to text. A
  key never written reads as `""`.
- `styles.dfy` (`Styles`): `getQuestionStyles`, and what the option styles
  reveal about the correct answer.
- `hotkeys.dfy` (`Hotkeys`): how a key press picks one of the three shortcut
  listeners.
- `navigation.dfy` (`Navigation`): each handler as a function from the state
  before it to the state after it (`View`), with the invariants and lemmas
  about them.
- `component.dfy` (`Component`): the `App` component as a class. It has the
  component's state fields and one method per handler. The advance handler is
  split into three methods, run in the handler's order: save the note
  (`SaveCurrentNote`), choose the next index (`ChangeQuestionClick`), then
  select the question and load its note (`SelectQuestion`). Each method's
  postcondition ties the new state to the `Navigation` function of the old
  state.
- `corrections.dfy` (`Corrections`): the corrected versions of the three
  defects listed under "Findings", with the property each was meant to have.

Each handler runs as one atomic step that reads the state it was entered with.
The two note-store calls in an advance happen in program order: first the
save, then the load. The random draw `Math.floor(Math.random() * n)` is a
parameter `roll`. It is required to lie in `[0, n)`, or to be 0 when the list
is empty, which is what that expression yields.

An advance to an index with no question does what the code does. It selects
`undefined`, and the read of `nextQuestion.ID` then throws (`thrown`, or the
`Throws` predicate). The updates issued before the throw stand: the saved note,
the new index and question, and the answer flag. The note is not loaded.

Three behaviours of the code are kept as written, since each is what the
code does:

- Sequential "next" can take the index to the list's length
  (App.tsx:115), which selects no question.
- The random expression yields 0 for an empty list (App.tsx:113).
- The help text names the answer keys as "n,f" (App.tsx:154), yet the
  listener's substring test (src/hooks.tsx:8) also fires for ",".

## Model

| member | source | states |
|---|---|---|
| `Questions.Tag` | App.tsx:37-41 | the `map` that stamps a list with its category; `AllQuestionsAt` states that every record keeps its place and gains the list's category, and `FilterTag` that the category's filter keeps the tagged list whole |
| `Questions.AllQuestions` | App.tsx:36-42 | the dataset holds exactly as many questions as the five lists together |
| `Questions.AllQuestionsAt` | App.tsx:36-42 | record `i` of list `c` sits at the offset of block `c` plus `i`, tagged `c`; the blocks come in the fixed order aerodynamics, legislation, materials, meteorology, practice |
| `Questions.AllQuestionsByCategory` | App.tsx:36-42 | filtering the dataset by a category gives back exactly that category's list, tagged, in its own order |
| `Questions.FilterCategory` | App.tsx:85 | the filter keeps exactly the questions of the category and never grows the list |
| `Questions.FilterUniform` | App.tsx:85 | a list whose questions all carry one category is kept whole by that category's filter and emptied by any other |
| `Questions.FilterAppend` | App.tsx:85 | filtering distributes over concatenation, so it keeps the relative order of what it keeps |
| `Questions.FilterTag` | App.tsx:85 | a list tagged with one category is kept whole by that category's filter and emptied by any other |
| `Questions.Eligible` | App.tsx:83-86 | with `all`, the eligible list is the whole dataset; otherwise it is exactly the dataset's questions of the selected category |
| `Values.Lookup` | App.tsx:122 | indexing yields a question exactly when the index is in range, and then the element at that index |
| `Values.Render` | App.tsx:107 | `${…}` of an ID or answer; `NoteKeyInjective` and `DecimalInjective` state that distinct numbers render distinctly |
| `Values.Truthy` | App.tsx:105 | JavaScript truthiness of an ID; `AdvanceSavesThenLoads` states that only a truthy ID saves a note |
| `Values.Decimal` | App.tsx:140 | the rendering of a number is a non-empty string of digits, one digit long exactly for numbers below 10 |
| `Values.DecimalRoundTrip` | App.tsx:140 | reading back the digits of a rendered number gives the number |
| `Values.DecimalInjective` | App.tsx:140 | two numbers render alike exactly when they are equal |
| `Values.DecimalIsNotUndefined` | App.tsx:140 | no number renders as the text of `undefined` |
| `Navigation.NoteKeyInjective` | App.tsx:107 | questions with distinct numeric IDs keep their notes under distinct `q-` keys |
| `NoteStore.WriteData` | src/store.tsx:3-19 | a write adds its key to the store's keys and no other |
| `NoteStore.GetData` | src/store.tsx:21-47 | a read; `WriteThenGet` and `GetUnset` state that it returns the text last written under the key, or "" when there is none |
| `NoteStore.WriteThenGet` | src/store.tsx:21-30 | reading a key just written gives the written text |
| `NoteStore.WriteKeepsOtherKeys` | src/store.tsx:3-19 | a write leaves every other key reading as before |
| `NoteStore.GetUnset` | src/store.tsx:25-30 | a key never written reads as the empty string |
| `Component.App.constructor` | App.tsx:67-81 | the component starts in sequential order, category `all`, at index 0 on the first question, answer hidden, gate on, empty note field, over the stored notes |
| `Navigation.InitialIsConsistent` | App.tsx:67-81 | the start-up selection is the question at index 0, the index is in range exactly when the dataset is non-empty, and the note field starts empty without reading the store |
| `Navigation.Initial` | App.tsx:67-81 | the start-up state; `InitialIsConsistent` states that it selects the question at index 0, is in range exactly when the dataset is non-empty, and starts with an empty note field |
| `Navigation.SequentialIndex` | App.tsx:110-120 | the sequential choice of the next index; `SequentialPrevious` states where "previous" moves from every index `i >= 0`, `SequentialNext` where "next" moves from `0 <= i <= length`, and `SequentialNextPastEnd` that "next" from beyond the length falls to 0 |
| `Navigation.NextIndex` | App.tsx:110-120 | the next index for either ordering; `RandomAdvanceInRange` and `SequentialAdvanceInRange` state when it lands on an eligible question |
| `Navigation.SaveNote` | App.tsx:105-108 | the store after the save; `AdvanceSavesThenLoads` states that it writes the note field under `q-` plus the old ID exactly when that ID is truthy, and `SaveLoadedNoteKeepsStore` that re-saving a loaded note changes no key's reading |
| `Navigation.SelectAt` | App.tsx:122-132 | selecting the question at an index; `AdvanceKeepsConsistent`, `AdvanceResetsGate` and `AdvanceSavesThenLoads` state that the selection agrees with the index, the gate closes again and the note field is loaded from the store |
| `Navigation.MoveTo` | App.tsx:105-132 | an ungated advance to an index: save, then select; `AdvanceToSameIdKeepsNotes` states that the save precedes the load |
| `Navigation.ChangeQuestion` | App.tsx:99-133 | the advance step; `GatedAdvanceOnlyReveals` and `TwoPressAdvance` state the gate's effect, and the lemmas below state the ungated move |
| `Navigation.CategoryChange` | App.tsx:88-97 | the category-change step; `CategoryChangeSelectsFirst` states its whole effect |
| `Navigation.KeyDown` | App.tsx:135-137 | the key-press step; `KeyDownDispatch` states which handler every non-empty key reaches |
| `Navigation.NoteKey` | App.tsx:107 | the store key `q-` plus the rendered ID; `NoteKeyInjective` states that distinct numeric IDs give distinct keys |
| `Navigation.Gated` | App.tsx:100 | the gate is closed; `GatedAdvanceOnlyReveals` and `TwoPressAdvance` state that an advance then only shows the answer |
| `Navigation.IsRandomIndex` | App.tsx:113 | the values the random draw can take; `RandomAdvanceInRange` states that such a draw lands on a question exactly when the list is non-empty |
| `Navigation.Throws` | App.tsx:132 | the advance reads the ID of `undefined`; `ChangeQuestionClick`'s `thrown`, `RandomAdvanceInRange`, `SequentialAdvanceInRange` and `NextFromLastQuestion` state when it holds |
| `Navigation.KeyDownThrows` | App.tsx:135-136 | a key press runs an advance that throws; `KeyPress`'s `thrown` ties it to the method |
| `Navigation.ToggleShowAnswer` | App.tsx:137 | the answer flip; `ToggleShowAnswerTwice` states that it changes the flag and is its own inverse, and `ToggleShowAnswerClick` that the checkbox does it |
| `Navigation.ToggleRevealAnswer` | App.tsx:272-275 | the gate flip; `ToggleRevealAnswerTwice` states that it changes the gate and is its own inverse |
| `Navigation.SetOrdering` | App.tsx:243-258 | the ordering buttons; `SetOrderingClick` states that only the ordering changes, and `NonTypingStepsKeepNoteLoaded` that it keeps the note field in step |
| `Navigation.EditNotes` | App.tsx:235 | typing in the note field; `NotesChange` states that only the note text changes |
| `Component.App.CategoryChangeClick` | App.tsx:88-97 | the new state is the category-change step of the old one |
| `Navigation.CategoryChangeSelectsFirst` | App.tsx:88-97 | after a category change the index is 0 and the selection is the first eligible question of the new category, or `undefined` when there is none; answer flags, ordering, note text and store are unchanged |
| `Component.App.ChangeQuestionClick` | App.tsx:99-133 | the new state is the advance step of the old one, and `thrown` holds exactly when the advance reads the ID of `undefined` |
| `Component.App.SaveCurrentNote` | App.tsx:105-108 | the new state is the old one with the note saved: the store gains the note field under `q-` plus the displayed question's ID when that ID is truthy, and nothing else changes |
| `Component.App.SelectQuestion` | App.tsx:122-132 | the new state selects the eligible question at the chosen index, closes the gate and loads the new question's note from the store; `thrown` holds exactly when that index has no question |
| `Navigation.GatedAdvanceOnlyReveals` | App.tsx:100-103 | with the gate on and the answer hidden, an advance only shows the answer: index, question, note and store are untouched and nothing throws |
| `Navigation.TwoPressAdvance` | App.tsx:100-129 | with the gate closed, the first press reveals and leaves the gate open; the second moves to the index an ungated advance would choose and closes the gate again |
| `Component.RevealThenAdvance` | App.tsx:99-133 | from start-up with two or more questions, two presses of "next" end at index 1 on the second question, answer hidden, its note loaded |
| `Navigation.SequentialPrevious` | App.tsx:110-119 | "previous" moves from `i > 0` to `i - 1` and stays at 0 through the default |
| `Navigation.SequentialNext` | App.tsx:115-116 | "next" moves to `i + 1` whenever `i <= length`, the last question included |
| `Navigation.SequentialNextPastEnd` | App.tsx:110-120 | "next" from an index beyond the list's length falls through to the 0 default |
| `Navigation.NextPastEndWraps` | App.tsx:110-132 | with the gate off, three presses of "next" from the last question throw at index `length`, throw again at `length + 1`, and then land on the first question |
| `Navigation.RandomAdvanceInRange` | App.tsx:112-113 | a random advance lands on an eligible question exactly when the list is non-empty, and throws exactly when it is empty |
| `Navigation.SequentialAdvanceInRange` | App.tsx:115-132 | from an in-range index a sequential advance stays in range unless it is "next" at the last question; it throws exactly when it leaves the range |
| `Navigation.NextFromLastQuestion` | App.tsx:115-132 | "next" from the last question sets the index to the list's length, selects `undefined`, keeps the note text and throws |
| `Navigation.AdvanceKeepsConsistent` | App.tsx:122-125 | after an ungated advance the selected question is the eligible question at the selected index, and a consistent state stays consistent |
| `Navigation.AdvanceResetsGate` | App.tsx:127-129 | after an ungated advance the answer is hidden when the gate is on and keeps its visibility otherwise |
| `Navigation.AdvanceSavesThenLoads` | App.tsx:105-132 | an ungated advance writes the note under `q-` plus the old ID only when that ID is truthy, then fills the note field from the store as it is after that write; with no question selected, the note field is unchanged |
| `Navigation.AdvanceToSameIdKeepsNotes` | App.tsx:105-132 | moving to a question with the same truthy ID shows the text just typed, because the save precedes the load |
| `Navigation.CategoryChangeThenAdvance` | App.tsx:88-108 | after a category change, the next ungated advance saves the old note text under the key of the new category's first question |
| `Component.App.ToggleShowAnswerClick` | App.tsx:268-271 | the new state is the old one with the answer's visibility flipped |
| `Navigation.ToggleShowAnswerTwice` | App.tsx:137 | a flip changes the answer's visibility and two flips restore the state |
| `Component.App.ToggleRevealAnswerClick` | App.tsx:272-275 | the new state is the old one with the gate flipped |
| `Navigation.ToggleRevealAnswerTwice` | App.tsx:272-275 | a flip changes the gate and two flips restore the state |
| `Component.App.SetOrderingClick` | App.tsx:243-258 | the new state is the old one with the chosen ordering |
| `Component.App.NotesChange` | App.tsx:235 | the new state is the old one with the typed note text |
| `Component.App.KeyPress` | App.tsx:135-137 | the new state is the key-press step of the old one, after each listener tests the key |
| `Navigation.KeyDownDispatch` | App.tsx:135-137 | for every non-empty key: "k" steps back, "j" steps forward, "n", "f", ",", "n,", ",f" and "n,f" flip the answer, and every other key changes nothing |
| `Hotkeys.ToLower` | src/hooks.tsx:6 | the lower-cased key has the key's length; ASCII capitals and the Kelvin sign are folded |
| `Hotkeys.KelvinSignLowersToK` | src/hooks.tsx:6 | the Kelvin sign lower-cases to "k" and so reaches the "previous" listener |
| `Hotkeys.Includes` | src/hooks.tsx:8 | the listener's test; `IncludesAt` states that it is a substring test |
| `Hotkeys.IncludesAt` | src/hooks.tsx:8 | the listener test holds exactly when the key occurs at some position of the key string |
| `Hotkeys.SingleKeyIncludes` | src/hooks.tsx:8 | a one-character key string fires for exactly that key |
| `Hotkeys.AnswerKeysIncludes` | src/hooks.tsx:8 | the "n,f" listener fires for exactly "n", ",", "f", "n,", ",f" and "n,f" |
| `Hotkeys.AtMostOneListener` | src/hooks.tsx:8 | no key press fires more than one of the three listeners |
| `Hotkeys.MatchesNameAnswerKeys` | App.tsx:137 | read as names, "n,f" matches exactly "n" and "f" |
| `Hotkeys.CommaTogglesAnswer` | src/hooks.tsx:8 | as written a comma fires the answer listener, and read as names it would not |
| `Styles.QuestionStyles` | App.tsx:139-151 | an option's style is normal while the answer is hidden; once shown, it is emphasized for the option whose number renders as the answer and dimmed for every other option |
| `Styles.StyleOf` | App.tsx:146-147 | the opacity and weight of each classification; `StyleOfInjective` states that the three styles are distinct |
| `Styles.IsAnswer` | App.tsx:140 | whether an option is the answer; `ShownAnswerMarksOnlyCorrect` and `ShownAnswerWithoutQuestionDimsAll` state that it holds for exactly the option the answer renders as, and for none without a question |
| `Styles.StyleOfInjective` | App.tsx:146-147 | normal (opacity 1, normal weight), dimmed (0.4, normal) and emphasized (1, bold) are three distinct styles |
| `Styles.HiddenAnswerAllNormal` | App.tsx:146-147 | while the answer is hidden every option has the normal style, whatever the answer |
| `Styles.ShownAnswerMarksOnlyCorrect` | App.tsx:139-151 | once shown, when the answer renders as `k` (the number k or the text "k"), option `k` and no other is emphasized and every other option is dimmed |
| `Styles.ShownAnswerWithoutQuestionDimsAll` | App.tsx:139-151 | with no question selected, showing the answer dims every option |
| `Corrections.SequentialIndexFixedSteps` | App.tsx:110-120 | with the guard `i < length - 1`, "next" stays in range and wraps from the last question to the first; "previous" is unchanged |
| `Corrections.FixedAdvanceKeepsInRange` | App.tsx:110-132 | with that guard, every advance from a consistent in-range state ends in one with a question selected, so nothing throws |
| `Corrections.StartupAdvanceOverwritesFirstNote` | App.tsx:81 | as written, the note field at start-up is out of step with the first question exactly when a non-empty note is stored for it, and the second press stores "" there |
| `Corrections.SaveLoadedNoteKeepsStore` | App.tsx:105-108 | saving a loaded and unedited note changes nothing that any key reads |
| `Corrections.FixedHandlersLoadNote` | App.tsx:81-97 | a start-up and a category change that load the displayed question's note put the note field in step, as an ungated advance already does |
| `Corrections.AdvanceKeepsNoteLoaded` | App.tsx:99-133 | an advance, gated or not and as written or corrected, keeps an in-step note field in step |
| `Corrections.NonTypingStepsKeepNoteLoaded` | App.tsx:99-275 | once in step, the note field stays in step through every step other than typing: an advance as written or corrected, the two toggles, the ordering buttons and the corrected key press |
| `Corrections.UneditedNavigationKeepsStore` | App.tsx:88-132 | while the note field is in step, an advance or a corrected category change without typing never changes what any key reads |
| `Corrections.KeyDownFixedDispatch` | App.tsx:135-137 | with key strings read as names, for every key: "k" steps back, "j" steps forward, "n" and "f" flip the answer, and every other key changes nothing |
| `Corrections.KeyDownFixedAnswerKeys` | App.tsx:137 | read as names, the answer flips for "n" and "f" and not for ","; as written it also flips for "," |

## Findings

| source | as written | input that shows it | evidently intended | confidence | as-written member | corrected member |
|---|---|---|---|---|---|---|
| App.tsx:115 | `selectedQuestionIndex <= eligibleQuestions.length` lets "next" at the last question pick index `length`; `nextQuestion` is `undefined` and `nextQuestion.ID` at line 132 throws | sequential ordering, answer shown, index = length - 1, press "next" | guard `selectedQuestionIndex < eligibleQuestions.length - 1`, so the index stays in range and the 0 default wraps to the first question | not executed; high that it throws; wrap versus stop at the last question is open; as written a third "next" reaches the first question (`Navigation.NextPastEndWraps`) | `Navigation.NextFromLastQuestion` | `Corrections.FixedAdvanceKeepsInRange` |
| App.tsx:81 | the note field starts as "" and is filled only by an advance, so the first advance saves "" over the first question's stored note; a category change likewise carries the old note text to the new question | store holding "x" under the first question's key; start the app; press "next" twice | load the displayed question's note at start-up and on a category change, so that navigating without typing never changes a stored note | not executed; high | `Corrections.StartupAdvanceOverwritesFirstNote` | `Corrections.UneditedNavigationKeepsStore` |
| src/hooks.tsx:8 | `allowedKeys.includes(key)` on the string "n,f" is a substring test, so "," (and "n,", ",f") also flips the answer | press "," | treat "n,f" as the list of keys "n" and "f" | not executed; medium | `Hotkeys.CommaTogglesAnswer` | `Corrections.KeyDownFixedDispatch` |

The `App` class and the `Navigation` step functions keep the code as
written, so that they show each defect. The `Corrections` module holds the
corrected definitions: `SequentialIndexFixed` / `ChangeQuestionFixed`,
`InitialFixed` / `CategoryChangeFixed`, and `KeyDownFixed`.

## Left out

- `AutoHeightImage`, the JSX tree, the `styles` sheet, the help alert and `console.log`: layout and output, not navigation.
- The two storage backends of the note store and the fallback between them: both are collapsed into one map. Failures are not modelled; a failed write would leave the map unchanged and a failed read would give "".
- React's batched, asynchronous state updates and the unordered completion of the note write and read: each handler is one atomic step, with the save before the load.
- Listener registration and removal in the hotkey hook: only the key test and the handler it calls are modelled.
- `Math.random` and its floating-point arithmetic: the draw is the parameter `roll`.
- Component.App.ChangeQuestionClick: requires the draw `roll` to be a value `Math.floor(Math.random() * length)` can take (in `[0, length)`, or 0 when the list is empty), because the random source is outside the model.
- Component.App.KeyPress: requires a non-empty key, because browsers never send an empty `event.key`. An empty key would fire all three listeners with state read before any of them ran, and this is not modelled.
- Hotkeys.ToLower: folds ASCII capitals and U+212A KELVIN SIGN only. `toLowerCase` folds other letters too, but the Kelvin sign is the only non-ASCII character whose lower case consists of the listeners' characters (k, j, n, f and the comma), so no other key reaches a listener.
- Values.Scalar: models `ID` and `Answer` as a non-negative integer or a string. Negative or fractional numbers, `null`, and a missing field are not modelled. `Values.Decimal` renders every integer in plain digits, while `${n}` uses exponent form (`1e+21`) from 10^21 on; IDs and answers of that size are not modelled.
- The question files themselves are not part of this model: the datasets are parameters.

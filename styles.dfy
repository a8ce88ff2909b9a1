/** The style of one answer option (`getQuestionStyles`): all options look the
    same while the answer is hidden; once it is shown, the correct option is
    emphasised and the others dimmed. */
module Styles {
  import opened Values
  import opened Questions

  datatype FontWeight = NormalWeight | Bold

  /** The style object: an opacity and a font weight. */
  datatype Style = Style(opacity: real, fontWeight: FontWeight)

  /** The three looks an option can have. */
  datatype Emphasis = Normal | Dimmed | Emphasized

  function StyleOf(e: Emphasis): Style {
    match e
    case Normal => Style(1.0, NormalWeight)
    case Dimmed => Style(0.4, NormalWeight)
    case Emphasized => Style(1.0, Bold)
  }

  /** The three looks are told apart by their styles. */
  lemma StyleOfInjective(e1: Emphasis, e2: Emphasis)
    ensures StyleOf(e1) == StyleOf(e2) <==> e1 == e2
  {
  }

  /** `${option}` === `${selectedQuestion?.Answer}`. */
  predicate IsAnswer(selected: Option<Question>, option: nat) {
    Decimal(option) == match selected
                       case None => Undefined
                       case Some(q) => Render(q.record.Answer)
  }

  /** `getQuestionStyles(option)`, field by field as the component builds it. */
  function QuestionStyles(showAnswer: bool, selected: Option<Question>, option: nat): (s: Style)
    ensures s == StyleOf(
      if !showAnswer then Normal
      else if IsAnswer(selected, option) then Emphasized
      else Dimmed)
  {
    var isAnswer := IsAnswer(selected, option);
    Style(
      if showAnswer then (if isAnswer then 1.0 else 0.4) else 1.0,
      if showAnswer then (if isAnswer then Bold else NormalWeight) else NormalWeight)
  }

  /** While the answer is hidden every option has the plain style. */
  lemma HiddenAnswerAllNormal(selected: Option<Question>, option: nat)
    ensures QuestionStyles(false, selected, option) == StyleOf(Normal)
  {
  }

  /** Once the answer is shown, when the question's answer is option `k`
      (stored as the number k or the text "k"), option `k` and no other is
      emphasised and every other option is dimmed. */
  lemma ShownAnswerMarksOnlyCorrect(q: Question, k: nat, option: nat)
    requires Render(q.record.Answer) == Decimal(k)
    ensures QuestionStyles(true, Some(q), option)
         == StyleOf(if option == k then Emphasized else Dimmed)
  {
    DecimalInjective(option, k);
  }

  /** With no question selected, showing the answer dims every option. */
  lemma ShownAnswerWithoutQuestionDimsAll(option: nat)
    ensures QuestionStyles(true, None, option) == StyleOf(Dimmed)
  {
    DecimalIsNotUndefined(option);
  }
}

/**
 * The second question renderer, built on the answer-capture hook. It is not
 * wired to the wizard page. It differs from the first one in three ways: it
 * checks only the required rule, it picks the scale's defaults with `??` so
 * an explicit 0 is kept, and it tolerates a missing metadata bag. It also
 * has a Back button and a label that depends on the question's position.
 */
module CommonQuestionRenderer {
  import opened Js
  import opened Types
  import opened QuestionnaireContext
  import opened QuestionLogic
  import QuestionRenderer

  type Widget = QuestionRenderer.Widget

  /** The scale slider with `??` defaults: only a missing bound gives 0, 10 or 1. */
  function ScaleSlider(rules: ValidationRules, value: string): (w: Widget)
    ensures w.Slider?
    ensures rules.min.Some? ==> w.min == rules.min.value
    ensures rules.min.None? ==> w.min == 0.0
    ensures rules.max.Some? ==> w.max == rules.max.value
    ensures rules.max.None? ==> w.max == 10.0
    ensures rules.step.Some? ==> w.step == rules.step.value
    ensures rules.step.None? ==> w.step == 1.0
    ensures w.current == QuestionRenderer.CurrentOr(value, w.min)
    ensures w.minLabel == QuestionRenderer.LabelOr(rules.minLabel, w.min)
    ensures w.maxLabel == QuestionRenderer.LabelOr(rules.maxLabel, w.max)
  {
    var min := rules.min.GetOr(0.0);
    var max := rules.max.GetOr(10.0);
    var step := rules.step.GetOr(1.0);
    QuestionRenderer.Slider(min, max, step,
      QuestionRenderer.LabelOr(rules.minLabel, min),
      QuestionRenderer.CurrentOr(value, min),
      QuestionRenderer.LabelOr(rules.maxLabel, max))
  }

  /** The options offered: `metadata?.options || []`. */
  function ChoiceOptions(metadata: Option<QuestionMetadata>): (options: seq<ChoiceOption>)
    ensures metadata.None? || metadata.value.options.None? ==> options == []
    ensures metadata.Some? && metadata.value.options.Some? ==> options == metadata.value.options.value
  {
    match metadata
    case None => []
    case Some(m) => m.options.GetOr([])
  }

  /** `renderInputField`: it always renders something. */
  function InputField(bq: BaseQuestion, value: string): (w: Widget)
    ensures w.Unsupported? <==> !QuestionRenderer.Supported(bq.questionType)
    ensures bq.questionType == TEXT ==>
      w == (if bq.validationRules.multiline then QuestionRenderer.TextArea else QuestionRenderer.TextLine)
    ensures bq.questionType == MULTIPLE_CHOICE ==> w == QuestionRenderer.RadioOptions(ChoiceOptions(bq.metadata))
    ensures bq.questionType == QuestionType.BOOLEAN ==> w == QuestionRenderer.YesNo
    ensures bq.questionType == SCALE ==> w == ScaleSlider(bq.validationRules, value)
    ensures bq.questionType == QuestionType.DATE ==> w == QuestionRenderer.DatePicker
  {
    match bq.questionType
    case TEXT =>
      if bq.validationRules.multiline then QuestionRenderer.TextArea else QuestionRenderer.TextLine
    case MULTIPLE_CHOICE => QuestionRenderer.RadioOptions(ChoiceOptions(bq.metadata))
    case BOOLEAN() => QuestionRenderer.YesNo
    case SCALE => ScaleSlider(bq.validationRules, value)
    case DATE() => QuestionRenderer.DatePicker
    case _ => QuestionRenderer.Unsupported
  }

  /**
   * The two renderers pick the same widget unless a scale bound is an
   * explicit 0 or a multiple-choice question has no metadata bag.
   */
  lemma VariantsAgree(bq: BaseQuestion, value: string)
    requires bq.validationRules.min != Some(0.0)
    requires bq.validationRules.max != Some(0.0)
    requires bq.validationRules.step != Some(0.0)
    requires !(bq.questionType == MULTIPLE_CHOICE && bq.metadata.None?)
    ensures QuestionRenderer.InputField(bq, value) == Some(InputField(bq, value))
  {
    if bq.questionType == SCALE {
      var a := QuestionRenderer.ScaleSlider(bq.validationRules, value);
      var b := ScaleSlider(bq.validationRules, value);
      assert a.min == b.min && a.max == b.max && a.step == b.step;
    }
  }

  /** An explicit `max: 0` is where the two renderers part: 10 against 0. */
  lemma ZeroMaxSeparatesVariants(bq: BaseQuestion, value: string)
    requires bq.questionType == SCALE && bq.validationRules.max == Some(0.0)
    ensures QuestionRenderer.InputField(bq, value).value.max == 10.0
    ensures InputField(bq, value).max == 0.0
  {
  }

  /** The submit button's label: "Finish" on the last question, else "Saved" once submitted, else "Next". */
  function SubmitLabel(isLastQuestion: bool, submitted: bool): (caption: string)
    ensures caption == "Finish" <==> isLastQuestion
    ensures caption == "Saved" <==> !isLastQuestion && submitted
    ensures caption == "Next" <==> !isLastQuestion && !submitted
  {
    if isLastQuestion then "Finish" else if submitted then "Saved" else "Next"
  }

  /** Which of the two buttons are disabled: submit once submitted, Back never. */
  datatype ButtonState = ButtonState(backDisabled: bool, submitDisabled: bool)

  function Buttons(submitted: bool): (b: ButtonState)
    ensures !b.backDisabled
    ensures b.submitDisabled <==> submitted
  {
    ButtonState(false, submitted)
  }

  /**
   * Whatever the rules, an answer the first renderer accepts passes this
   * renderer's check, and the two refuse for the required rule on exactly
   * the same answers.
   */
  lemma OnlyRequiredRuleShared(
    rules: ValidationRules, dataType: ResponseDataType, value: string,
    toNumber: string -> JsNumber, matches: (string, string) -> bool)
    ensures QuestionRenderer.ValidateResponse(rules, dataType, value, toNumber, matches).Accepted? ==>
      RequiredCheck(rules, value).None?
    ensures RequiredCheck(rules, value).Some? <==>
      QuestionRenderer.ValidateResponse(rules, dataType, value, toNumber, matches) == QuestionRenderer.Rejected(QuestionRenderer.Required)
  {
  }

  /** Both renderers word the required refusal the same way. */
  lemma RequiredTextShared(show: real -> string)
    ensures QuestionRenderer.Message(QuestionRenderer.Required, show) == RequiredMessage
  {
  }

  /** An INTEGER rule the first renderer enforces is ignored here: "15" against `max: 10`. */
  lemma DatatypeRulesIgnored(bq: BaseQuestion, toNumber: string -> JsNumber, matches: (string, string) -> bool)
    requires bq.responseDataType == INTEGER
    requires bq.validationRules == NoRules.(max := Some(10.0))
    requires toNumber("15") == Num(15.0)
    ensures RequiredCheck(bq.validationRules, "15").None?
    ensures QuestionRenderer.ValidateResponse(bq.validationRules, bq.responseDataType, "15", toNumber, matches)
         == QuestionRenderer.Rejected(QuestionRenderer.AboveMax(10.0))
  {
    assert !Blank("15") by { assert !IsWhitespace("15"[0]); }
  }

  /** `handleChange`: only the value changes (an existing error is merely logged). */
  method HandleChange(logic: QuestionLogicState, newValue: string)
    modifies logic
    ensures logic.value == newValue && logic.error == old(logic.error) && logic.submitted == old(logic.submitted)
  {
    logic.SetValue(newValue);
  }

  /**
   * `handleSubmit`: the hook's `validate` with the question's rules decides
   * whether `submit` runs at all.
   */
  method HandleSubmit(
    logic: QuestionLogicState, bq: BaseQuestion, p: QuestionnaireProvider, saveFails: bool, hasOnNext: bool)
    returns (scheduleNext: bool)
    requires p.Valid() && logic.questionId == bq.id
    modifies logic, p
    ensures p.Valid()
    ensures logic.value == old(logic.value)
    ensures RequiredCheck(bq.validationRules, old(logic.value)).Some? ==>
      && p.Snapshot() == old(p.Snapshot()) && !scheduleNext
      && logic.error == RequiredCheck(bq.validationRules, old(logic.value))
      && logic.submitted == old(logic.submitted)
    ensures RequiredCheck(bq.validationRules, old(logic.value)).None? && !saveFails ==>
      && p.Snapshot() == Record(old(p.Snapshot()), bq.id, old(logic.value), None)
      && logic.submitted && logic.error.None? && scheduleNext == hasOnNext
    ensures RequiredCheck(bq.validationRules, old(logic.value)).None? && saveFails ==>
      && p.Snapshot() == old(p.Snapshot()) && !scheduleNext
      && logic.error == Some(SaveFailedMessage) && logic.submitted == old(logic.submitted)
  {
    var ok := logic.Validate(bq.validationRules);
    if ok {
      scheduleNext := logic.Submit(p, saveFails, hasOnNext);
    } else {
      scheduleNext := false;
    }
  }
}

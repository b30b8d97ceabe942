/**
 * The question renderer the wizard page uses: the validation chain run on
 * "Next", the draft state (value, error, submitted) and how it is seeded
 * from an earlier answer, and the choice of input widget, with the scale's
 * defaults picked by `||`.
 *
 * `Number(...)` and regular-expression matching are parameters: `toNumber`
 * stands for `Number(value)` and `matches(pattern, value)` for
 * `new RegExp(pattern).test(value)`.
 */
module QuestionRenderer {
  import opened Js
  import opened Types
  import opened QuestionnaireContext

  /** Why an answer is refused; the numbers are the rule values quoted in the message. */
  datatype ValidationError =
    | Required
    | NotANumber
    | BelowMin(min: real)
    | AboveMax(max: real)
    | TooShort(minLength: real)
    | TooLong(maxLength: real)
    | BadFormat(message: string)

  datatype Verdict = Accepted | Rejected(error: ValidationError)

  const DefaultPatternMessage: string := "The entered format is not valid"

  /** The text shown for an error; `show` formats a number as JavaScript does. */
  function Message(e: ValidationError, show: real -> string): (text: string)
    ensures e == Required ==> text == "This question is required"
    ensures e == NotANumber ==> text == "Please enter a valid number"
    ensures e.BadFormat? ==> text == e.message
    ensures !e.BadFormat? ==> text != ""
  {
    match e
    case Required => "This question is required"
    case NotANumber => "Please enter a valid number"
    case BelowMin(m) => "Min value is " + show(m)
    case AboveMax(m) => "Max value is " + show(m)
    case TooShort(n) => "Text must be at least " + show(n) + " characters"
    case TooLong(n) => "Text should not exceed " + show(n) + " characters"
    case BadFormat(text) => text
  }

  /** The INTEGER rules, in order: a number at all, then `min`, then `max`. */
  function IntegerVerdict(rules: ValidationRules, n: JsNumber): (r: Verdict)
    ensures n.NaN? ==> r == Rejected(NotANumber)
    ensures n.Num? && rules.min.Some? && n.value < rules.min.value ==> r == Rejected(BelowMin(rules.min.value))
    ensures n.Num? && !(rules.min.Some? && n.value < rules.min.value) && rules.max.Some? && n.value > rules.max.value ==>
      r == Rejected(AboveMax(rules.max.value))
    ensures r == Accepted <==>
      n.Num? && !(rules.min.Some? && n.value < rules.min.value) && !(rules.max.Some? && n.value > rules.max.value)
  {
    match n
    case NaN => Rejected(NotANumber)
    case Num(x) =>
      if rules.min.Some? && x < rules.min.value then Rejected(BelowMin(rules.min.value))
      else if rules.max.Some? && x > rules.max.value then Rejected(AboveMax(rules.max.value))
      else Accepted
  }

  /**
   * The STRING rules, in order: `minLength`, `maxLength` (each only when
   * truthy, so 0 switches it off, and each against `value.length`, which
   * counts UTF-16 code units), then `pattern` (only when non-empty),
   * reported with `patternMessage` or the default text.
   */
  function StringVerdict(rules: ValidationRules, value: string, matches: (string, string) -> bool): (r: Verdict)
    ensures TruthyNumber(rules.minLength) && (Utf16Length(value) as real) < rules.minLength.value ==>
      r == Rejected(TooShort(rules.minLength.value))
    ensures (&& !(TruthyNumber(rules.minLength) && (Utf16Length(value) as real) < rules.minLength.value)
             && TruthyNumber(rules.maxLength) && (Utf16Length(value) as real) > rules.maxLength.value) ==>
      r == Rejected(TooLong(rules.maxLength.value))
    ensures (&& !(TruthyNumber(rules.minLength) && (Utf16Length(value) as real) < rules.minLength.value)
             && !(TruthyNumber(rules.maxLength) && (Utf16Length(value) as real) > rules.maxLength.value)
             && TruthyText(rules.pattern) && !matches(rules.pattern.value, value)) ==>
      r == Rejected(BadFormat(if TruthyText(rules.patternMessage) then rules.patternMessage.value else DefaultPatternMessage))
    ensures r.Rejected? && r.error.BadFormat? ==>
      && TruthyText(rules.pattern) && !matches(rules.pattern.value, value)
      && r.error.message == (if TruthyText(rules.patternMessage) then rules.patternMessage.value else DefaultPatternMessage)
    ensures r == Accepted <==>
      && !(TruthyNumber(rules.minLength) && (Utf16Length(value) as real) < rules.minLength.value)
      && !(TruthyNumber(rules.maxLength) && (Utf16Length(value) as real) > rules.maxLength.value)
      && !(TruthyText(rules.pattern) && !matches(rules.pattern.value, value))
    ensures r.Rejected? ==> r.error.TooShort? || r.error.TooLong? || r.error.BadFormat?
  {
    var length := Utf16Length(value) as real;
    if TruthyNumber(rules.minLength) && length < rules.minLength.value then
      Rejected(TooShort(rules.minLength.value))
    else if TruthyNumber(rules.maxLength) && length > rules.maxLength.value then
      Rejected(TooLong(rules.maxLength.value))
    else if TruthyText(rules.pattern) && !matches(rules.pattern.value, value) then
      Rejected(BadFormat(OrText(rules.patternMessage, DefaultPatternMessage)))
    else
      Accepted
  }

  /**
   * Lengths are counted in UTF-16 code units: two emoji are four units, so
   * they exceed `maxLength: 3`, and one emoji already meets `minLength: 2`.
   */
  lemma AstralCharactersCountTwice(matches: (string, string) -> bool)
    ensures StringVerdict(NoRules.(maxLength := Some(3.0)), "\U{1F600}\U{1F600}", matches) == Rejected(TooLong(3.0))
    ensures StringVerdict(NoRules.(minLength := Some(2.0)), "\U{1F600}", matches) == Accepted
  {
    var two := "\U{1F600}\U{1F600}";
    assert Utf16Length(two[1..][1..]) == 0;
    assert Utf16Length(two) == 4;
    var one := "\U{1F600}";
    assert Utf16Length(one[1..]) == 0;
    assert Utf16Length(one) == 2;
  }

  /**
   * `validateResponse`: the required rule first (a value that trims to
   * nothing), then, for a non-empty value only, the rules of its datatype.
   * Datatypes other than INTEGER and STRING have no rules.
   */
  function ValidateResponse(
    rules: ValidationRules, dataType: ResponseDataType, value: string,
    toNumber: string -> JsNumber, matches: (string, string) -> bool): (r: Verdict)
    ensures rules.required && Blank(value) ==> r == Rejected(Required)
    ensures r == Rejected(Required) ==> rules.required && Blank(value)
    ensures value == "" ==> (r == Accepted <==> !rules.required)
    ensures !(rules.required && Blank(value)) && dataType != INTEGER && dataType != STRING ==> r == Accepted
    ensures !(rules.required && Blank(value)) && value != "" && dataType == INTEGER ==>
      r == IntegerVerdict(rules, toNumber(value))
    ensures !(rules.required && Blank(value)) && value != "" && dataType == STRING ==>
      r == StringVerdict(rules, value, matches)
  {
    TrimEmptyIffBlank(value);
    if rules.required && Trim(value) == "" then Rejected(Required)
    else if value == "" then Accepted
    else match dataType
      case INTEGER => IntegerVerdict(rules, toNumber(value))
      case STRING => StringVerdict(rules, value, matches)
      case _ => Accepted
  }

  /** What an input widget displays: a text, or a number written as such. */
  datatype Shown = ShownText(text: string) | ShownNumber(number: real)

  /** The input widget chosen for a question. */
  datatype Widget =
    | TextLine
    | TextArea
    | RadioOptions(options: seq<ChoiceOption>)
    | YesNo
    | Slider(min: real, max: real, step: real, minLabel: Shown, current: Shown, maxLabel: Shown)
    | DatePicker
    | Unsupported

  /** `text || bound`, for the labels at the slider's ends. */
  function LabelOr(text: Option<string>, bound: real): Shown {
    if TruthyText(text) then ShownText(text.value) else ShownNumber(bound)
  }

  /** `value || min`: the slider's position and the figure shown under it. */
  function CurrentOr(value: string, min: real): Shown {
    if value != "" then ShownText(value) else ShownNumber(min)
  }

  /** The scale slider with `||` defaults: a missing bound and an explicit 0 alike give 0, 10 and 1. */
  function ScaleSlider(rules: ValidationRules, value: string): (w: Widget)
    ensures w.Slider?
    ensures TruthyNumber(rules.min) ==> w.min == rules.min.value
    ensures !TruthyNumber(rules.min) ==> w.min == 0.0
    ensures TruthyNumber(rules.max) ==> w.max == rules.max.value
    ensures !TruthyNumber(rules.max) ==> w.max == 10.0
    ensures TruthyNumber(rules.step) ==> w.step == rules.step.value
    ensures !TruthyNumber(rules.step) ==> w.step == 1.0
    ensures w.current == (if value == "" then ShownNumber(w.min) else ShownText(value))
    ensures w.minLabel == (if TruthyText(rules.minLabel) then ShownText(rules.minLabel.value) else ShownNumber(w.min))
    ensures w.maxLabel == (if TruthyText(rules.maxLabel) then ShownText(rules.maxLabel.value) else ShownNumber(w.max))
  {
    var min := OrNumber(rules.min, 0.0);
    var max := OrNumber(rules.max, 10.0);
    var step := OrNumber(rules.step, 1.0);
    Slider(min, max, step, LabelOr(rules.minLabel, min), CurrentOr(value, min), LabelOr(rules.maxLabel, max))
  }

  /** The question types that have a widget; every other one gets the placeholder. */
  predicate Supported(t: QuestionType): (ok: bool)
    ensures !ok <==> t == NUMBER || t == QuestionType.TIME || t == QuestionType.DATETIME || t == FILE
  {
    t.TEXT? || t.MULTIPLE_CHOICE? || t.BOOLEAN? || t.SCALE? || t.DATE?
  }

  /**
   * `renderInputField`. `None` stands for the TypeError raised when a
   * multiple-choice question arrives without a metadata bag.
   */
  function InputField(bq: BaseQuestion, value: string): (w: Option<Widget>)
    ensures w.None? <==> bq.questionType == MULTIPLE_CHOICE && bq.metadata.None?
    ensures w == Some(Unsupported) <==> !Supported(bq.questionType)
    ensures bq.questionType == TEXT ==> w == Some(if bq.validationRules.multiline then TextArea else TextLine)
    ensures bq.questionType == MULTIPLE_CHOICE && bq.metadata.Some? ==>
      w == Some(RadioOptions(bq.metadata.value.options.GetOr([])))
    ensures bq.questionType == QuestionType.BOOLEAN ==> w == Some(YesNo)
    ensures bq.questionType == SCALE ==> w == Some(ScaleSlider(bq.validationRules, value))
    ensures bq.questionType == QuestionType.DATE ==> w == Some(DatePicker)
  {
    match bq.questionType
    case TEXT => Some(if bq.validationRules.multiline then TextArea else TextLine)
    case MULTIPLE_CHOICE =>
      if bq.metadata.None? then None else Some(RadioOptions(bq.metadata.value.options.GetOr([])))
    case BOOLEAN() => Some(YesNo)
    case SCALE => Some(ScaleSlider(bq.validationRules, value))
    case DATE() => Some(DatePicker)
    case _ => Some(Unsupported)
  }

  /** The label of the submit button. */
  function ButtonLabel(submitted: bool): (caption: string)
    ensures caption == "Response saved" <==> submitted
    ensures caption == "Next" <==> !submitted
  {
    if submitted then "Response saved" else "Next"
  }

  /** The draft a question starts from. */
  datatype Draft = Draft(value: string, submitted: bool)

  /**
   * The initialisation effect: an earlier answer for the base question is
   * shown, read-only; otherwise the draft is empty and editable.
   */
  function ExistingDraft(baseQuestionId: string, responses: map<string, PatientResponse>): (d: Draft)
    ensures d.submitted <==> baseQuestionId in responses
    ensures baseQuestionId in responses ==> d.value == responses[baseQuestionId].response
    ensures baseQuestionId !in responses ==> d.value == ""
  {
    if baseQuestionId in responses then Draft(responses[baseQuestionId].response, true)
    else Draft("", false)
  }

  /** Once an answer is saved, re-running the effect shows exactly that answer as submitted. */
  lemma DraftAfterSaveRestoresAnswer(s: State, baseQuestionId: string, value: string, meta: Option<Meta>)
    requires s.patient.Some?
    ensures ExistingDraft(baseQuestionId, Record(s, baseQuestionId, value, meta).responses) == Draft(value, true)
  {
  }

  /** The renderer's local state. */
  class RendererState {
    var value: string
    var error: Option<ValidationError>
    var submitted: bool

    constructor ()
      ensures value == "" && error.None? && !submitted
    {
      value := "";
      error := None;
      submitted := false;
    }

    /** The effect run when the question or the stored responses change. */
    method SyncWithResponses(baseQuestionId: string, responses: map<string, PatientResponse>)
      modifies this
      ensures Draft(value, submitted) == ExistingDraft(baseQuestionId, responses)
      ensures error == old(error)
    {
      if baseQuestionId in responses {
        value := responses[baseQuestionId].response;
        submitted := true;
      } else {
        value := "";
        submitted := false;
      }
    }

    /** `handleChange`: take the new value and clear any error. */
    method HandleChange(newValue: string)
      modifies this
      ensures value == newValue && error.None? && submitted == old(submitted)
    {
      value := newValue;
      if error.Some? {
        error := None;
      }
    }

    /**
     * `handleSubmit`: validate; if accepted, save the value, mark the draft
     * submitted and return true (the caller's `onNext`); if refused, keep the
     * error and change nothing else.
     */
    method HandleSubmit(
      p: QuestionnaireProvider, question: Question,
      toNumber: string -> JsNumber, matches: (string, string) -> bool)
      returns (next: bool)
      requires p.Valid()
      modifies this, p
      ensures p.Valid()
      ensures var bq := question.baseQuestion;
        var verdict := ValidateResponse(bq.validationRules, bq.responseDataType, old(value), toNumber, matches);
        && next == verdict.Accepted?
        && error == (if verdict.Accepted? then None else Some(verdict.error))
        && value == old(value)
        && (verdict.Accepted? ==> submitted && p.Snapshot() == Record(old(p.Snapshot()), bq.id, old(value), None))
        && (verdict.Rejected? ==> submitted == old(submitted) && p.Snapshot() == old(p.Snapshot()))
    {
      var bq := question.baseQuestion;
      error := None;
      var verdict := ValidateResponse(bq.validationRules, bq.responseDataType, value, toNumber, matches);
      if verdict.Rejected? {
        error := Some(verdict.error);
        return false;
      }
      p.SaveResponse(bq.id, value, None);
      submitted := true;
      next := true;
    }
  }
}

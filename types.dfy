/**
 * The entities the questionnaire exchanges with its backend: organizations
 * (clients), questions with their declarative base question, patients and
 * captured responses. Free-form JSON bags are narrowed to the keys the core
 * reads.
 */
module Types {
  import opened Js

  /** An organization the questionnaire is run for. */
  datatype Client = Client(
    id: string,
    name: string,
    externalId: Option<string>,
    preferredEhr: Option<string>,
    defaultLanguage: string,
    isActive: bool)

  /** The input modality of a base question. */
  datatype QuestionType =
    TEXT | MULTIPLE_CHOICE | BOOLEAN | NUMBER | DATE | TIME | DATETIME | FILE | SCALE

  /** The datatype a response is expected to have. */
  datatype ResponseDataType =
    STRING | INTEGER | FLOAT | BOOLEAN | DATE | TIME | DATETIME | JSON | BLOB

  /**
   * The keys of the validation-rule bag that the renderers read. Absent keys
   * are `None`; `required` and `multiline` are read only for their
   * truthiness.
   */
  datatype ValidationRules = ValidationRules(
    required: bool,
    multiline: bool,
    min: Option<real>,
    max: Option<real>,
    step: Option<real>,
    minLength: Option<real>,
    maxLength: Option<real>,
    pattern: Option<string>,
    patternMessage: Option<string>,
    minLabel: Option<string>,
    maxLabel: Option<string>)

  /** The rule bag `{}`: no key present. */
  const NoRules: ValidationRules :=
    ValidationRules(false, false, None, None, None, None, None, None, None, None, None)

  /** One entry of a multiple-choice option list. */
  datatype ChoiceOption = ChoiceOption(value: string, labelText: string)

  /** The metadata bag of a base question; only its option list is read. */
  datatype QuestionMetadata = QuestionMetadata(options: Option<seq<ChoiceOption>>)

  /** The language-independent description of a question. */
  datatype BaseQuestion = BaseQuestion(
    id: string,
    internalCode: string,
    questionType: QuestionType,
    responseDataType: ResponseDataType,
    validationRules: ValidationRules,
    metadata: Option<QuestionMetadata>)

  /** A localized question as the backend returns it. */
  datatype Question = Question(
    id: string,
    baseQuestionId: string,
    questionSetId: string,
    languageCode: string,
    questionText: string,
    baseQuestion: BaseQuestion)

  datatype BasicInfo = BasicInfo(
    name: string,
    email: Option<string>,
    phone: Option<string>,
    age: Option<JsNumber>,
    gender: Option<string>)

  /** A patient; `id` is assigned by the backend on creation. */
  datatype Patient = Patient(
    id: Option<string>,
    clientId: string,
    externalId: Option<string>,
    basicInfo: BasicInfo,
    preferredLanguage: string)

  /** Free-form response metadata, with its values kept as text. */
  type Meta = map<string, string>

  /**
   * One captured answer. `patientId` is whatever the patient's `id` was when
   * the answer was saved: the source's non-null assertion on it is only a
   * compile-time claim.
   */
  datatype PatientResponse = PatientResponse(
    patientId: Option<string>,
    baseQuestionId: string,
    response: string,
    responseMeta: Option<Meta>)

  /** What a backend call resolves to: a value, or a rejection. */
  datatype Reply<+T> = Ok(value: T) | Failed(cause: string)
}

/**
 * The patient form the patient-info page uses: the form fields, the
 * language picker, and the submission guard that checks for a selected
 * client and a non-blank name before turning the form into a patient draft
 * and registering it with the session store.
 *
 * `parseInt` is a parameter standing for JavaScript's `parseInt`.
 */
module PatientForm {
  import opened Js
  import opened Types
  import opened QuestionnaireContext

  /** The form's text fields, all held as strings. */
  datatype FormData = FormData(
    name: string,
    email: string,
    phone: string,
    age: string,
    gender: string,
    preferredLanguage: string)

  /** The inputs that report changes through `handleChange`, by their `name` attribute. */
  datatype Field = Name | Email | Phone | Age | Gender

  function Get(form: FormData, field: Field): string {
    match field
    case Name => form.name
    case Email => form.email
    case Phone => form.phone
    case Age => form.age
    case Gender => form.gender
  }

  /** `handleChange`: the named field takes the new value; nothing else moves. */
  function Update(form: FormData, field: Field, value: string): (r: FormData)
    ensures Get(r, field) == value
    ensures forall f :: f != field ==> Get(r, f) == Get(form, f)
    ensures r.preferredLanguage == form.preferredLanguage
  {
    match field
    case Name => form.(name := value)
    case Email => form.(email := value)
    case Phone => form.(phone := value)
    case Age => form.(age := value)
    case Gender => form.(gender := value)
  }

  /** The initial language: the client's default, or "en" when that is missing or empty. */
  function DefaultLanguage(client: Option<Client>): (code: string)
    ensures client.Some? && client.value.defaultLanguage != "" ==> code == client.value.defaultLanguage
    ensures client.None? || client.value.defaultLanguage == "" ==> code == "en"
  {
    if client.Some? && client.value.defaultLanguage != "" then client.value.defaultLanguage else "en"
  }

  /** The form as first shown: empty fields and the default language. */
  function InitialForm(client: Option<Client>): (form: FormData)
    ensures forall f :: Get(form, f) == ""
    ensures form.preferredLanguage == DefaultLanguage(client)
  {
    FormData("", "", "", "", "", DefaultLanguage(client))
  }

  /** `x || undefined` on a form field: the empty string becomes absent. */
  function Optional(text: string): (o: Option<string>)
    ensures o.None? <==> text == ""
    ensures o.GetOr("") == text
  {
    if text == "" then None else Some(text)
  }

  /**
   * The patient draft built from the form: the client's id, the name as
   * typed, absent optional fields where the form is empty, the parsed age,
   * the chosen language, and no id yet.
   */
  function Draft(client: Client, form: FormData, parseInt: string -> JsNumber): (p: Patient)
    ensures p.id.None? && p.externalId.None?
    ensures p.clientId == client.id
    ensures p.basicInfo.name == form.name
    ensures p.basicInfo.email.None? <==> form.email == ""
    ensures p.basicInfo.phone.None? <==> form.phone == ""
    ensures p.basicInfo.gender.None? <==> form.gender == ""
    ensures p.basicInfo.email.GetOr("") == form.email
    ensures p.basicInfo.phone.GetOr("") == form.phone
    ensures p.basicInfo.gender.GetOr("") == form.gender
    ensures p.basicInfo.age.None? <==> form.age == ""
    ensures p.basicInfo.age.Some? ==> p.basicInfo.age.value == parseInt(form.age)
    ensures p.preferredLanguage == form.preferredLanguage
  {
    Patient(
      None,
      client.id,
      None,
      BasicInfo(
        form.name,
        Optional(form.email),
        Optional(form.phone),
        if form.age != "" then Some(parseInt(form.age)) else None,
        Optional(form.gender)),
      form.preferredLanguage)
  }

  /** Why a submission is refused before anything is sent. */
  datatype FormError = NoClient | BlankName

  /**
   * The error texts of this form. None is empty, so the error banner, which
   * is rendered only for a truthy `error`, always appears for a refusal.
   */
  function ErrorText(e: FormError): (text: string)
    ensures text != ""
  {
    match e
    case NoClient => "No client selected. Please go back and select a client."
    case BlankName => "Please enter your name."
  }

  /** The submit button's caption, which reads "Saving..." while a submission is outstanding. */
  function SubmitCaption(isSubmitting: bool): (caption: string)
    ensures caption == "Saving..." <==> isSubmitting
    ensures caption == "Continue" <==> !isSubmitting
  {
    if isSubmitting then "Saving..." else "Continue"
  }

  datatype Checked = Ready(patient: Patient) | Refused(error: FormError)

  /**
   * The guard chain of `handleSubmit`, in order: a client must be selected,
   * then the name must not trim to nothing; then the draft is built.
   */
  function CheckSubmission(client: Option<Client>, form: FormData, parseInt: string -> JsNumber): (r: Checked)
    ensures client.None? ==> r == Refused(NoClient)
    ensures client.Some? && Blank(form.name) ==> r == Refused(BlankName)
    ensures client.Some? && !Blank(form.name) ==> r == Ready(Draft(client.value, form, parseInt))
  {
    TrimEmptyIffBlank(form.name);
    if client.None? then Refused(NoClient)
    else if Trim(form.name) == "" then Refused(BlankName)
    else Ready(Draft(client.value, form, parseInt))
  }

  /** The banner text after a submission: the refusal's text, or none once the form is accepted. */
  function DisplayedError(client: Option<Client>, form: FormData, parseInt: string -> JsNumber): (shown: Option<string>)
    ensures client.None? ==> shown == Some("No client selected. Please go back and select a client.")
    ensures client.Some? && Blank(form.name) ==> shown == Some("Please enter your name.")
    ensures client.Some? && !Blank(form.name) ==> shown.None?
  {
    match CheckSubmission(client, form, parseInt)
    case Refused(e) => Some(ErrorText(e))
    case Ready(_) => None
  }

  /** The form component's state. */
  class PatientFormState {
    var formData: FormData
    var selectedLanguage: string
    var error: Option<FormError>
    var isSubmitting: bool

    /** Mounting the form for the client currently in the session. */
    constructor (client: Option<Client>)
      ensures formData == InitialForm(client) && selectedLanguage == DefaultLanguage(client)
      ensures error.None? && !isSubmitting
    {
      formData := InitialForm(client);
      selectedLanguage := DefaultLanguage(client);
      error := None;
      isSubmitting := false;
    }

    method HandleChange(field: Field, value: string)
      modifies this
      ensures formData == Update(old(formData), field, value)
      ensures selectedLanguage == old(selectedLanguage) && error == old(error) && isSubmitting == old(isSubmitting)
    {
      formData := Update(formData, field, value);
    }

    /** `handleLanguageSelect`: the picker and the form field both take the code. */
    method HandleLanguageSelect(languageCode: string)
      modifies this
      ensures selectedLanguage == languageCode
      ensures formData == old(formData).(preferredLanguage := languageCode)
      ensures error == old(error) && isSubmitting == old(isSubmitting)
    {
      selectedLanguage := languageCode;
      formData := formData.(preferredLanguage := languageCode);
    }

    /**
     * `handleSubmit`. A refused submission shows its error and sends nothing;
     * an accepted one clears the error, registers the draft through the
     * store's `setPatient` with `isSubmitting` raised around the call, and
     * navigates to the questionnaire. Because `setPatient` swallows every
     * collaborator failure, an accepted submission always navigates.
     */
    method HandleSubmit(
      p: QuestionnaireProvider, parseInt: string -> JsNumber,
      createPatient: Patient -> Reply<Patient>,
      fetchQuestions: (string, string) -> Reply<seq<Question>>)
      returns (navigateTo: Option<string>)
      requires p.Valid()
      modifies this, p
      ensures p.Valid()
      ensures formData == old(formData) && selectedLanguage == old(selectedLanguage)
      ensures var checked := CheckSubmission(old(p.client), old(formData), parseInt);
        && (checked.Refused? ==>
              && error == Some(checked.error) && isSubmitting == old(isSubmitting)
              && navigateTo.None? && p.Snapshot() == old(p.Snapshot()))
        && (checked.Ready? ==>
              && error.None? && !isSubmitting && navigateTo == Some("/questionnaire")
              && p.Snapshot() == RegisterPatient(old(p.Snapshot()), checked.patient, createPatient, fetchQuestions))
    {
      var checked := CheckSubmission(p.client, formData, parseInt);
      if checked.Refused? {
        error := Some(checked.error);
        return None;
      }
      isSubmitting := true;
      error := None;
      var _ := p.SetPatient(checked.patient, createPatient, fetchQuestions);
      navigateTo := Some("/questionnaire");
      isSubmitting := false;
    }
  }
}

/**
 * The second patient form. Its state, change handlers, guard chain and
 * draft are those of the first (`PatientForm`); it differs in its error
 * texts and in flagging the name field when the name is blank and some
 * error is showing.
 */
module CommonPatientForm {
  import opened Js
  import opened Types
  import opened PatientForm

  /**
   * The error texts of this form. None is empty, so the error banner, which
   * is rendered only for a truthy `error`, always appears for a refusal.
   */
  function ErrorText(e: FormError): (text: string)
    ensures text != ""
  {
    match e
    case NoClient => "No organization selected. Please go back and select one."
    case BlankName => "Please enter your full name."
  }

  /** The banner text after a submission: the refusal's text, or none once the form is accepted. */
  function DisplayedError(client: Option<Client>, form: FormData, parseInt: string -> JsNumber): (shown: Option<string>)
    ensures client.None? ==> shown == Some("No organization selected. Please go back and select one.")
    ensures client.Some? && Blank(form.name) ==> shown == Some("Please enter your full name.")
    ensures client.Some? && !Blank(form.name) ==> shown.None?
  {
    match CheckSubmission(client, form, parseInt)
    case Refused(e) => Some(ErrorText(e))
    case Ready(_) => None
  }

  /** The name field is flagged when the name trims to nothing and an error is present. */
  function IsNameInvalid(form: FormData, error: Option<FormError>): (flagged: bool)
    ensures flagged <==> Blank(form.name) && error.Some?
  {
    TrimEmptyIffBlank(form.name);
    Trim(form.name) == "" && error.Some?
  }

  /** A blank-name refusal always flags the name field. */
  lemma BlankNameRefusalFlagsName(client: Option<Client>, form: FormData, parseInt: string -> JsNumber)
    requires CheckSubmission(client, form, parseInt) == Refused(BlankName)
    ensures IsNameInvalid(form, Some(BlankName))
  {
  }

  /**
   * A missing client flags the name field too, exactly when the name is
   * blank; an accepted form is never flagged, whatever error is left over.
   */
  lemma FlagFollowsName(client: Option<Client>, form: FormData, parseInt: string -> JsNumber, error: Option<FormError>)
    ensures CheckSubmission(client, form, parseInt) == Refused(NoClient) ==>
      (IsNameInvalid(form, Some(NoClient)) <==> Blank(form.name))
    ensures CheckSubmission(client, form, parseInt).Ready? ==> !IsNameInvalid(form, error)
  {
  }
}

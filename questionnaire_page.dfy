/**
 * The wizard page: what it shows for a session state, where it redirects,
 * how it advances to the next question and when it fires the submission.
 */
module QuestionnairePage {
  import opened Js
  import opened Types
  import opened QuestionnaireContext
  import QuestionRenderer

  /** What the page renders. `progress` of `total` drives the progress bar. */
  datatype Screen =
    | Loading
    | Saving
    | Asking(question: Question, index: nat, progress: nat, total: nat)

  /**
   * The render decision, tried in order: no patient or no questions shows
   * the spinner, an outstanding submission the saving screen, an index past
   * the end the spinner again; otherwise the current question.
   */
  function Render(s: State): (v: Screen)
    ensures v == Saving <==> s.patient.Some? && |s.questions| > 0 && s.isSubmitting
    ensures v.Asking? <==>
      s.patient.Some? && !s.isSubmitting && s.currentQuestionIndex < |s.questions|
    ensures v.Asking? ==>
      && 0 <= v.index < |s.questions|
      && v.index == s.currentQuestionIndex
      && v.question == s.questions[v.index]
      && v.progress == v.index + 1
      && v.total == |s.questions|
  {
    if s.patient.None? || |s.questions| == 0 then Loading
    else if s.isSubmitting then Saving
    else if s.currentQuestionIndex >= |s.questions| then Loading
    else Asking(s.questions[s.currentQuestionIndex], s.currentQuestionIndex,
                s.currentQuestionIndex + 1, |s.questions|)
  }

  /** The submission effect's trigger: a non-empty list whose end has been reached. */
  predicate ShouldSubmit(s: State): (fire: bool)
    ensures fire ==> s.questions != [] && !Render(s).Asking?
    ensures !fire && s.patient.Some? && !s.isSubmitting && s.questions != [] ==> Render(s).Asking?
  {
    |s.questions| > 0 && s.currentQuestionIndex >= |s.questions|
  }

  /** The redirect effect: home without a patient, the completion page once completed. */
  function Redirect(s: State): (r: Option<string>)
    ensures r == Some("/") <==> s.patient.None?
    ensures r == Some("/completion") <==> s.patient.Some? && s.isCompleted
    ensures r.None? <==> s.patient.Some? && !s.isCompleted
  {
    if s.patient.None? then Some("/")
    else if s.isCompleted then Some("/completion")
    else None
  }

  /** `handleNext`: one question further. */
  function Advance(s: State): (r: State)
    ensures r.currentQuestionIndex == s.currentQuestionIndex + 1
    ensures r.(currentQuestionIndex := s.currentQuestionIndex) == s
  {
    s.(currentQuestionIndex := s.currentQuestionIndex + 1)
  }

  /** An empty question list never triggers a submission, whatever the index. */
  lemma EmptyListNeverSubmits(s: State)
    requires s.questions == []
    ensures !ShouldSubmit(s) && Render(s) == Loading
  {
  }

  /** While a question is on screen the submission trigger is off, and conversely. */
  lemma AskingExcludesSubmission(s: State)
    requires s.patient.Some? && !s.isSubmitting && |s.questions| > 0
    ensures Render(s).Asking? <==> !ShouldSubmit(s)
  {
  }

  /** While the submission call is outstanding the page shows the saving screen. */
  lemma SavingWhileSubmitting(s: State)
    requires Request(s).Some? && |s.questions| > 0
    ensures Render(BeginSubmit(s)) == Saving
  {
  }

  /**
   * Accepting an answer to the last question and advancing triggers a
   * submission that does go out, because the answer just recorded makes the
   * response set non-empty.
   */
  lemma LastAnswerTriggersSubmission(s: State, response: string)
    requires Inv(s) && Render(s).Asking? && Render(s).index == |s.questions| - 1
    ensures var t := Advance(Record(s, Render(s).question.baseQuestion.id, response, None));
      ShouldSubmit(t) && Request(t).Some? && Inv(t)
  {
    var id := Render(s).question.baseQuestion.id;
    assert id in Record(s, id, response, None).responses;
  }

  /** A successful submission sends the page to the completion screen. */
  lemma SuccessRedirectsToCompletion(s: State, api: SubmitRequest -> Reply<()>)
    requires Request(s).Some? && api(Request(s).value).Ok?
    ensures Redirect(Submit(s, api)) == Some("/completion")
  {
  }

  /** A failed submission leaves the page where it was, off the saving screen. */
  lemma FailureStaysOnPage(s: State, api: SubmitRequest -> Reply<()>)
    requires Request(s).Some? && api(Request(s).value).Failed? && !s.isCompleted
    ensures Redirect(Submit(s, api)).None?
    ensures Render(Submit(s, api)) != Saving
  {
  }

  /**
   * Neither raising the submitting flag nor the outcome of the call turns the
   * trigger off or empties the request. So each further run of the effect,
   * during the call or after it, sends the same request again.
   */
  lemma EffectStaysArmed(s: State, api: SubmitRequest -> Reply<()>)
    requires ShouldSubmit(s) && Request(s).Some?
    ensures ShouldSubmit(BeginSubmit(s)) && Request(BeginSubmit(s)) == Request(s)
    ensures ShouldSubmit(Submit(s, api)) && Request(Submit(s, api)) == Request(s)
  {
  }

  /** `handleNext`, bound to the session store. */
  method HandleNext(p: QuestionnaireProvider)
    requires p.Valid()
    modifies p
    ensures p.Valid() && p.Snapshot() == Advance(old(p.Snapshot()))
  {
    p.SetCurrentQuestionIndex(p.currentQuestionIndex + 1);
  }

  /** The submission effect: submit when the trigger holds, do nothing otherwise. */
  method SubmissionEffect(p: QuestionnaireProvider, api: SubmitRequest -> Reply<()>)
    returns (sent: Option<SubmitRequest>)
    requires p.Valid()
    modifies p
    ensures p.Valid()
    ensures ShouldSubmit(old(p.Snapshot())) ==>
      p.Snapshot() == Submit(old(p.Snapshot()), api) && sent == Request(old(p.Snapshot()))
    ensures !ShouldSubmit(old(p.Snapshot())) ==> p.Snapshot() == old(p.Snapshot()) && sent.None?
  {
    if |p.questions| > 0 && p.currentQuestionIndex >= |p.questions| {
      sent := p.SubmitResponses(api);
    } else {
      sent := None;
    }
  }

  /**
   * One answer, end to end: an accepted answer is recorded, the page moves
   * on, and the submission effect fires if that was the last question; a
   * refused answer changes nothing in the session.
   */
  function AfterAnswer(s: State, baseQuestionId: string, value: string, accepted: bool,
                       api: SubmitRequest -> Reply<()>): (r: State)
    ensures !accepted ==> r == s
    ensures accepted ==>
      && r.currentQuestionIndex == s.currentQuestionIndex + 1
      && r.responses == Record(s, baseQuestionId, value, None).responses
      && r.client == s.client && r.patient == s.patient && r.questions == s.questions
    ensures var t := Advance(Record(s, baseQuestionId, value, None));
      accepted && !ShouldSubmit(t) ==> r.isSubmitting == s.isSubmitting && r.isCompleted == s.isCompleted
    ensures var t := Advance(Record(s, baseQuestionId, value, None));
      accepted && ShouldSubmit(t) && Request(t).Some? ==>
        !r.isSubmitting && (r.isCompleted <==> s.isCompleted || api(Request(t).value).Ok?)
  {
    if !accepted then s
    else
      var t := Advance(Record(s, baseQuestionId, value, None));
      if ShouldSubmit(t) then Submit(t, api) else t
  }

  /** An accepted answer to an earlier question puts the next question on screen. */
  lemma EarlierAnswerShowsNext(s: State, value: string, api: SubmitRequest -> Reply<()>)
    requires Inv(s) && Render(s).Asking? && Render(s).index < |s.questions| - 1
    ensures var next := Render(AfterAnswer(s, Render(s).question.baseQuestion.id, value, true, api));
      next.Asking? && next.index == Render(s).index + 1
  {
  }

  /**
   * An accepted answer to the last question submits the session; when the
   * service accepts, the page goes to the completion screen, and when it
   * fails, the page stays, off the saving screen, with every answer kept.
   */
  lemma FinalAnswerSubmits(s: State, value: string, api: SubmitRequest -> Reply<()>)
    requires Inv(s) && Render(s).Asking? && Render(s).index == |s.questions| - 1 && !s.isCompleted
    ensures var id := Render(s).question.baseQuestion.id;
      var t := Advance(Record(s, id, value, None));
      var after := AfterAnswer(s, id, value, true, api);
      && Request(t).Some?
      && (api(Request(t).value).Ok? ==> Redirect(after) == Some("/completion"))
      && (api(Request(t).value).Failed? ==>
            Redirect(after).None? && Render(after) != Saving && after.responses == t.responses)
  {
    LastAnswerTriggersSubmission(s, value);
  }

  /**
   * The wizard's answer path: the renderer's submit handler with the page's
   * `handleNext` as its `onNext`, followed by the submission effect.
   */
  method AnswerCurrentQuestion(
    p: QuestionnaireProvider, r: QuestionRenderer.RendererState, question: Question,
    toNumber: string -> JsNumber, matches: (string, string) -> bool, api: SubmitRequest -> Reply<()>)
    returns (sent: Option<SubmitRequest>)
    requires p.Valid()
    modifies p, r
    ensures p.Valid()
    ensures var bq := question.baseQuestion;
      var verdict := QuestionRenderer.ValidateResponse(bq.validationRules, bq.responseDataType, old(r.value), toNumber, matches);
      var t := Advance(Record(old(p.Snapshot()), bq.id, old(r.value), None));
      && p.Snapshot() == AfterAnswer(old(p.Snapshot()), bq.id, old(r.value), verdict.Accepted?, api)
      && sent == (if verdict.Accepted? && ShouldSubmit(t) then Request(t) else None)
      && r.value == old(r.value)
      && r.error == (if verdict.Accepted? then None else Some(verdict.error))
      && (verdict.Accepted? ==> r.submitted)
      && (verdict.Rejected? ==> r.submitted == old(r.submitted))
  {
    var next := r.HandleSubmit(p, question, toNumber, matches);
    if next {
      HandleNext(p);
      sent := SubmissionEffect(p, api);
    } else {
      sent := None;
    }
  }
}

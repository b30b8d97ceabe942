/**
 * The answer-capture hook behind the second renderer: a draft value, an
 * error text and a submitted flag, seeded from an earlier answer, mirrored
 * into a draft-progress map on every non-empty change, checked only for the
 * required rule, and saved through the session store.
 */
module QuestionLogic {
  import opened Js
  import opened Types
  import opened QuestionnaireContext

  const RequiredMessage: string := "This question is required"
  const SaveFailedMessage: string := "Failed to save response. Please try again."

  /** `validate`'s check: the only rule is `required` on a value that trims to nothing. */
  function RequiredCheck(rules: ValidationRules, value: string): (e: Option<string>)
    ensures e.Some? <==> rules.required && Blank(value)
    ensures e.Some? ==> e.value == RequiredMessage
  {
    TrimEmptyIffBlank(value);
    if rules.required && Trim(value) == "" then Some(RequiredMessage) else None
  }

  /** `submit` re-validates against `{}`, which accepts every value. */
  lemma EmptyRulesAcceptAll(value: string)
    ensures RequiredCheck(NoRules, value).None?
  {
  }

  /**
   * The progress effect on the stored map: a non-empty value is written
   * under the question id, replacing what was there; an empty one writes
   * nothing. Other keys keep their drafts.
   */
  function PersistDraft(progress: map<string, string>, questionId: string, value: string): (r: map<string, string>)
    ensures value == "" ==> r == progress
    ensures value != "" ==> r.Keys == progress.Keys + {questionId} && r[questionId] == value
    ensures forall k :: k in progress && k != questionId ==> k in r && r[k] == progress[k]
  {
    if value != "" then progress[questionId := value] else progress
  }

  /** Mirroring one draft and then another for the same question keeps only the latest non-empty one. */
  lemma PersistDraftOverwrites(progress: map<string, string>, questionId: string, first: string, second: string)
    requires second != ""
    ensures PersistDraft(PersistDraft(progress, questionId, first), questionId, second)
         == PersistDraft(progress, questionId, second)
  {
    var a := PersistDraft(PersistDraft(progress, questionId, first), questionId, second);
    var b := PersistDraft(progress, questionId, second);
    assert a.Keys == b.Keys;
  }

  /** The `questionnaire-progress` entry of local storage, as an in-memory map. */
  class DraftStorage {
    var progress: map<string, string>

    constructor ()
      ensures progress == map[]
    {
      progress := map[];
    }
  }

  /** The hook's state for one question. */
  class QuestionLogicState {
    const questionId: string
    var value: string
    var error: Option<string>
    var submitted: bool

    constructor (questionId: string)
      ensures this.questionId == questionId && value == "" && error.None? && !submitted
    {
      this.questionId := questionId;
      value := "";
      error := None;
      submitted := false;
    }

    /**
     * The initialisation effect: an earlier answer is loaded and marked
     * submitted; without one the draft is left exactly as it is.
     */
    method SyncWithResponses(responses: map<string, PatientResponse>)
      modifies this
      ensures questionId in responses ==> value == responses[questionId].response && submitted
      ensures questionId !in responses ==> value == old(value) && submitted == old(submitted)
      ensures error == old(error)
    {
      if questionId in responses {
        value := responses[questionId].response;
        submitted := true;
      }
    }

    /** The progress effect, run after the value changes. */
    method PersistProgress(storage: DraftStorage)
      modifies storage
      ensures storage.progress == PersistDraft(old(storage.progress), questionId, value)
    {
      if value != "" {
        var progress := storage.progress;
        progress := progress[questionId := value];
        storage.progress := progress;
      }
    }

    /** `setValue`, as the renderer's change handler calls it. */
    method SetValue(newValue: string)
      modifies this
      ensures value == newValue && error == old(error) && submitted == old(submitted)
    {
      value := newValue;
    }

    /** `validate`: clear the error, then refuse a required value that trims to nothing. */
    method Validate(rules: ValidationRules) returns (ok: bool)
      modifies this
      ensures error == RequiredCheck(rules, value) && ok == error.None?
      ensures value == old(value) && submitted == old(submitted)
    {
      error := None;
      TrimEmptyIffBlank(value);
      if rules.required && Trim(value) == "" {
        error := Some(RequiredMessage);
        return false;
      }
      ok := true;
    }

    /**
     * `submit`: save the value through the store, mark it submitted and
     * schedule `onNext` when one is given. `saveFails` says whether the
     * store's `saveResponse` throws; when it does, the failure text is shown
     * and nothing else changes. The session store's own `SaveResponse` never
     * throws.
     */
    method Submit(p: QuestionnaireProvider, saveFails: bool, hasOnNext: bool) returns (scheduleNext: bool)
      requires p.Valid()
      modifies this, p
      ensures p.Valid()
      ensures value == old(value)
      ensures !saveFails ==>
        && p.Snapshot() == Record(old(p.Snapshot()), questionId, old(value), None)
        && submitted && error.None? && scheduleNext == hasOnNext
      ensures saveFails ==>
        && p.Snapshot() == old(p.Snapshot())
        && submitted == old(submitted) && error == Some(SaveFailedMessage) && !scheduleNext
    {
      var ok := Validate(NoRules);
      if !ok {
        return false;
      }
      if saveFails {
        error := Some(SaveFailedMessage);
        return false;
      }
      p.SaveResponse(questionId, value, None);
      submitted := true;
      scheduleNext := hasOnNext;
    }

    /** `back`: calls `onPrevious` exactly when one is given; the hook changes nothing itself. */
    method Back(hasOnPrevious: bool) returns (callsPrevious: bool)
      ensures callsPrevious == hasOnPrevious
    {
      callsPrevious := false;
      if hasOnPrevious {
        callsPrevious := true;
      }
    }
  }
}

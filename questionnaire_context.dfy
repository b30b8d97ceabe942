/**
 * The session store shared by every screen: the selected client, the
 * registered patient, the fetched questions, the index of the question being
 * answered, the captured responses keyed by base-question id, and the two
 * submission flags.
 *
 * `State` is a snapshot of the store and the functions below are its
 * transitions; the class `QuestionnaireProvider` holds the seven fields and
 * each of its methods is proved to move its snapshot exactly as the matching
 * transition does.
 */
module QuestionnaireContext {
  import opened Js
  import opened Types

  datatype State = State(
    client: Option<Client>,
    patient: Option<Patient>,
    questions: seq<Question>,
    currentQuestionIndex: nat,
    responses: map<string, PatientResponse>,
    isSubmitting: bool,
    isCompleted: bool)

  /** The store as it is first created. */
  const Initial: State := State(None, None, [], 0, map[], false, false)

  /** The arguments of one call to the submission collaborator. */
  datatype SubmitRequest = SubmitRequest(patientId: Option<string>, records: set<PatientResponse>)

  /** Every record sits under its own base-question id. */
  predicate Keyed(responses: map<string, PatientResponse>) {
    forall k :: k in responses ==> responses[k].baseQuestionId == k
  }

  /** The invariant every transition keeps. */
  predicate Inv(s: State) {
    && Keyed(s.responses)
    && (|s.responses| > 0 ==> s.patient.Some?)
  }

  /** `resetQuestionnaireState`: everything but the client goes back to its initial value. */
  function Reset(s: State): (r: State)
    ensures r.client == s.client && r.patient.None? && r.questions == []
    ensures r.currentQuestionIndex == 0 && r.responses == map[]
    ensures !r.isSubmitting && !r.isCompleted
  {
    Initial.(client := s.client)
  }

  /** `setClient`: reset, then select the new client. */
  function SelectClient(s: State, c: Client): (r: State)
    ensures r.client == Some(c) && r.patient.None? && r.questions == []
    ensures r.currentQuestionIndex == 0 && r.responses == map[]
    ensures !r.isSubmitting && !r.isCompleted
  {
    Reset(s).(client := Some(c))
  }

  /** Selecting a client forgets everything that was recorded before. */
  lemma SelectClientForgets(s1: State, s2: State, c: Client)
    ensures SelectClient(s1, c) == SelectClient(s2, c)
    ensures Inv(SelectClient(s1, c))
  {
  }

  /** The record `saveResponse` writes for the current patient. */
  function ResponseFor(p: Patient, baseQuestionId: string, response: string, meta: Option<Meta>): (r: PatientResponse)
    ensures r.patientId == p.id && r.baseQuestionId == baseQuestionId && r.response == response
    ensures r.responseMeta == Some(if meta.Some? then meta.value else map[])
  {
    PatientResponse(p.id, baseQuestionId, response, Some(meta.GetOr(map[])))
  }

  /**
   * `saveResponse`: without a patient nothing happens; otherwise the record
   * for `baseQuestionId` is inserted, replacing any earlier one, and every
   * other key keeps its record.
   */
  function Record(s: State, baseQuestionId: string, response: string, meta: Option<Meta>): (r: State)
    ensures s.patient.None? ==> r == s
    ensures s.patient.Some? ==> r.responses.Keys == s.responses.Keys + {baseQuestionId}
    ensures s.patient.Some? ==>
      r.responses[baseQuestionId] == ResponseFor(s.patient.value, baseQuestionId, response, meta)
    ensures forall k :: k in s.responses && k != baseQuestionId ==> r.responses[k] == s.responses[k]
    ensures r.(responses := s.responses) == s
  {
    if s.patient.None? then s
    else s.(responses := s.responses[baseQuestionId := ResponseFor(s.patient.value, baseQuestionId, response, meta)])
  }

  /** Saving twice under one id keeps only the second answer. */
  lemma LastWriteWins(s: State, id: string, first: string, second: string, m1: Option<Meta>, m2: Option<Meta>)
    ensures Record(Record(s, id, first, m1), id, second, m2) == Record(s, id, second, m2)
  {
    if s.patient.Some? {
      var a := Record(Record(s, id, first, m1), id, second, m2).responses;
      var b := Record(s, id, second, m2).responses;
      assert a.Keys == b.Keys;
      assert forall k :: k in a ==> a[k] == b[k];
    }
  }

  /** Answers to different questions do not interfere: their order does not matter. */
  lemma SavesCommute(s: State, i: string, j: string, ri: string, rj: string, mi: Option<Meta>, mj: Option<Meta>)
    requires i != j
    ensures Record(Record(s, i, ri, mi), j, rj, mj) == Record(Record(s, j, rj, mj), i, ri, mi)
  {
    if s.patient.Some? {
      var a := Record(Record(s, i, ri, mi), j, rj, mj).responses;
      var b := Record(Record(s, j, rj, mj), i, ri, mi).responses;
      assert a.Keys == b.Keys;
      assert forall k :: k in a ==> a[k] == b[k];
    }
  }

  /** The number of records grows by one exactly when the id is new. */
  lemma RecordCount(s: State, id: string, response: string, meta: Option<Meta>)
    requires s.patient.Some?
    ensures |Record(s, id, response, meta).responses| == |s.responses| + (if id in s.responses then 0 else 1)
  {
    var r := Record(s, id, response, meta).responses;
    if id in s.responses {
      assert r.Keys == s.responses.Keys;
    } else {
      assert r.Keys == s.responses.Keys + {id};
    }
  }

  /**
   * `submitResponses`' guard and call: with a patient and at least one
   * response, the patient's id and exactly the stored records are sent.
   */
  function Request(s: State): (r: Option<SubmitRequest>)
    ensures r.Some? <==> s.patient.Some? && |s.responses| > 0
    ensures r.Some? ==> r.value.patientId == s.patient.value.id && r.value.records == s.responses.Values
  {
    if s.patient.None? || |s.responses| == 0 then None
    else Some(SubmitRequest(s.patient.value.id, s.responses.Values))
  }

  /** The state while the submission call is outstanding. */
  function BeginSubmit(s: State): (r: State)
    ensures Request(s).None? ==> r == s
    ensures Request(s).Some? ==> r == s.(isSubmitting := true)
  {
    if Request(s).Some? then s.(isSubmitting := true) else s
  }

  /** The state once the submission call has resolved with `reply`. */
  function EndSubmit(s: State, reply: Reply<()>): (r: State)
    ensures !r.isSubmitting
    ensures r.isCompleted <==> s.isCompleted || reply.Ok?
    ensures r.(isSubmitting := s.isSubmitting, isCompleted := s.isCompleted) == s
  {
    s.(isCompleted := s.isCompleted || reply.Ok?, isSubmitting := false)
  }

  /**
   * `submitResponses` from start to end: without a request nothing changes;
   * otherwise success marks the session completed, failure leaves the
   * completed flag as it was, and the submitting flag ends cleared.
   */
  function Submit(s: State, api: SubmitRequest -> Reply<()>): (r: State)
    ensures Request(s).None? ==> r == s
    ensures Request(s).Some? ==> !r.isSubmitting
    ensures Request(s).Some? ==> (r.isCompleted <==> s.isCompleted || api(Request(s).value).Ok?)
    ensures r.(isSubmitting := s.isSubmitting, isCompleted := s.isCompleted) == s
  {
    var req := Request(s);
    if req.None? then s else EndSubmit(BeginSubmit(s), api(req.value))
  }

  /** Distinct keys carry distinct records, so a keyed map has as many values as keys. */
  lemma {:induction false} KeyedValuesCount(m: map<string, PatientResponse>)
    requires Keyed(m)
    ensures |m.Values| == |m|
  {
    if |m| > 0 {
      var k :| k in m;
      var rest := m - {k};
      assert Keyed(rest);
      KeyedValuesCount(rest);
      assert m[k] !in rest.Values by {
        forall j | j in rest ensures rest[j] != m[k] {
          assert rest[j].baseQuestionId == j != k;
        }
      }
      assert m.Values == rest.Values + {m[k]} by {
        forall v | v in m.Values ensures v in rest.Values + {m[k]} {
          var j :| j in m && m[j] == v;
          if j != k { assert j in rest; }
        }
      }
      assert m.Keys == rest.Keys + {k};
    }
  }

  /**
   * A submission sends one record per answered base question: every stored
   * record, nothing else, and as many records as there are keys.
   */
  lemma SubmissionSendsEachAnswerOnce(s: State)
    requires Inv(s) && Request(s).Some?
    ensures var recs := Request(s).value.records;
      && |recs| == |s.responses|
      && (forall k :: k in s.responses ==> s.responses[k] in recs)
      && (forall rec :: rec in recs ==> rec.baseQuestionId in s.responses && s.responses[rec.baseQuestionId] == rec)
  {
    KeyedValuesCount(s.responses);
    forall rec | rec in Request(s).value.records
      ensures rec.baseQuestionId in s.responses && s.responses[rec.baseQuestionId] == rec
    {
      var j :| j in s.responses && s.responses[j] == rec;
    }
  }

  /**
   * Nothing in `submitResponses` looks at the completed or submitting flag:
   * a session that has already been submitted, successfully or not, sends
   * the same request again when asked.
   */
  lemma ResubmissionNotGuarded(s: State, api: SubmitRequest -> Reply<()>)
    requires Request(s).Some?
    ensures Request(Submit(s, api)) == Request(s)
    ensures Request(BeginSubmit(s)) == Request(s)
  {
  }

  /** The arguments `setPatient` fetches questions with, if it fetches at all. */
  function FetchArgs(created: Patient): (r: Option<(string, string)>)
    ensures r.Some? <==> created.clientId != "" && created.preferredLanguage != ""
    ensures r.Some? ==> r.value == (created.clientId, created.preferredLanguage)
  {
    if created.clientId != "" && created.preferredLanguage != ""
    then Some((created.clientId, created.preferredLanguage))
    else None
  }

  /**
   * `setPatient`: create the patient, store what the backend returned, then
   * fetch its questions when it has a client id and a language. A failed
   * creation changes nothing; a failed fetch keeps the new patient and the
   * old questions. No failure escapes.
   */
  function RegisterPatient(
    s: State, data: Patient,
    createPatient: Patient -> Reply<Patient>,
    fetchQuestions: (string, string) -> Reply<seq<Question>>): (r: State)
    ensures createPatient(data).Failed? ==> r == s
    ensures createPatient(data).Ok? ==> r.patient == Some(createPatient(data).value)
    ensures createPatient(data).Ok? && FetchArgs(createPatient(data).value).Some? ==>
      var (clientId, language) := FetchArgs(createPatient(data).value).value;
      r.questions == (match fetchQuestions(clientId, language)
                      case Ok(qs) => qs
                      case Failed(_) => s.questions)
    ensures (createPatient(data).Failed? || FetchArgs(createPatient(data).value).None?) ==>
      r.questions == s.questions
    ensures r.(patient := s.patient, questions := s.questions) == s
  {
    match createPatient(data)
    case Failed(_) => s
    case Ok(created) =>
      var withPatient := s.(patient := Some(created));
      match FetchArgs(created)
      case None => withPatient
      case Some((clientId, language)) =>
        match fetchQuestions(clientId, language)
        case Ok(qs) => withPatient.(questions := qs)
        case Failed(_) => withPatient
  }

  /** Every transition keeps the invariant. */
  lemma TransitionsKeepInv(s: State, c: Client, id: string, response: string, meta: Option<Meta>,
                           data: Patient, createPatient: Patient -> Reply<Patient>,
                           fetchQuestions: (string, string) -> Reply<seq<Question>>,
                           api: SubmitRequest -> Reply<()>)
    requires Inv(s)
    ensures Inv(SelectClient(s, c)) && Inv(Reset(s))
    ensures Inv(Record(s, id, response, meta))
    ensures Inv(RegisterPatient(s, data, createPatient, fetchQuestions))
    ensures Inv(BeginSubmit(s)) && Inv(Submit(s, api))
  {
  }

  /** The store held by the provider component: seven independently updated fields. */
  class QuestionnaireProvider {
    var client: Option<Client>
    var patient: Option<Patient>
    var questions: seq<Question>
    var currentQuestionIndex: nat
    var responses: map<string, PatientResponse>
    var isSubmitting: bool
    var isCompleted: bool

    function Snapshot(): State
      reads this
    {
      State(client, patient, questions, currentQuestionIndex, responses, isSubmitting, isCompleted)
    }

    predicate Valid()
      reads this
    {
      Inv(Snapshot())
    }

    /** The store's initial values. */
    constructor ()
      ensures Valid() && Snapshot() == Initial
    {
      client := None;
      patient := None;
      questions := [];
      currentQuestionIndex := 0;
      responses := map[];
      isSubmitting := false;
      isCompleted := false;
    }

    method ResetQuestionnaireState()
      requires Valid()
      modifies this
      ensures Valid() && Snapshot() == Reset(old(Snapshot()))
    {
      patient := None;
      questions := [];
      currentQuestionIndex := 0;
      responses := map[];
      isSubmitting := false;
      isCompleted := false;
    }

    method SetClient(newClient: Client)
      requires Valid()
      modifies this
      ensures Valid() && Snapshot() == SelectClient(old(Snapshot()), newClient)
    {
      ResetQuestionnaireState();
      client := Some(newClient);
    }

    /**
     * Returns the arguments questions were fetched with, `None` when no
     * fetch was made.
     */
    method SetPatient(
      patientData: Patient,
      createPatient: Patient -> Reply<Patient>,
      fetchQuestions: (string, string) -> Reply<seq<Question>>)
      returns (fetched: Option<(string, string)>)
      requires Valid()
      modifies this
      ensures Valid()
      ensures Snapshot() == RegisterPatient(old(Snapshot()), patientData, createPatient, fetchQuestions)
      ensures fetched == (if createPatient(patientData).Ok? then FetchArgs(createPatient(patientData).value) else None)
    {
      fetched := None;
      var created := createPatient(patientData);
      if created.Failed? {
        return;
      }
      patient := Some(created.value);
      if created.value.clientId != "" && created.value.preferredLanguage != "" {
        fetched := Some((created.value.clientId, created.value.preferredLanguage));
        var reply := fetchQuestions(created.value.clientId, created.value.preferredLanguage);
        if reply.Ok? {
          questions := reply.value;
        }
      }
    }

    method SaveResponse(baseQuestionId: string, response: string, meta: Option<Meta>)
      requires Valid()
      modifies this
      ensures Valid() && Snapshot() == Record(old(Snapshot()), baseQuestionId, response, meta)
    {
      if patient.None? {
        return;
      }
      var m := if meta.Some? then meta.value else map[];
      responses := responses[baseQuestionId := PatientResponse(patient.value.id, baseQuestionId, response, Some(m))];
    }

    /** Returns what was sent to the submission collaborator, `None` when nothing was. */
    method SubmitResponses(api: SubmitRequest -> Reply<()>) returns (sent: Option<SubmitRequest>)
      requires Valid()
      modifies this
      ensures Valid() && Snapshot() == Submit(old(Snapshot()), api) && sent == Request(old(Snapshot()))
    {
      if patient.None? || |responses| == 0 {
        return None;
      }
      isSubmitting := true;
      var request := SubmitRequest(patient.value.id, responses.Values);
      var reply := api(request);
      if reply.Ok? {
        isCompleted := true;
      }
      isSubmitting := false;
      sent := Some(request);
    }

    method SetQuestions(qs: seq<Question>)
      requires Valid()
      modifies this
      ensures Valid() && Snapshot() == old(Snapshot()).(questions := qs)
    {
      questions := qs;
    }

    method SetCurrentQuestionIndex(index: nat)
      requires Valid()
      modifies this
      ensures Valid() && Snapshot() == old(Snapshot()).(currentQuestionIndex := index)
    {
      currentQuestionIndex := index;
    }
  }
}

# Patient intake questionnaire — a Dafny model

This project models the client-side core of a patient intake site. A user
picks an organization (a *client*) and registers a patient through a form.
The site then fetches the client's questions in the patient's language and
walks the patient through them one at a time. Each accepted answer is kept
in a session store keyed by base-question id. After the last question, all
answers are submitted at once and the site moves to a completion page.

The model has one module per core source file, plus two shared modules:

- `Js` — JavaScript semantics the code relies on. These are exact
  `String.prototype.trim` with ECMAScript's whitespace set, `||` falsiness
  for numbers and strings, `??` (`Option.GetOr`), and `JsNumber` for
  `Number` results (NaN or a real).
- `Types` — the records of `src/types/index.ts`.
- `QuestionnaireContext` — the session store, `QuestionnaireProvider`.
  It is a class with the seven state fields the provider keeps. Every
  method is proved to move the store from `Snapshot()` to a pure
  transition of the old snapshot: `SelectClient`, `RegisterPatient`,
  `Record`, `Submit`, and so on. The lemmas are stated about those
  transitions and about the invariant `Inv`, which every method keeps.
  `Inv` says that records are keyed by their own base-question id and
  that there are no records without a patient.
- `QuestionnairePage` — the wizard page:
  - what it renders for a session state, and where it redirects;
  - `handleNext` and the submission effect;
  - the whole answer path from the renderer's submit button to the
    completion redirect.
- `QuestionRenderer` — the renderer the page uses:
  - datatype-driven validation, with the exact error texts;
  - the widget chosen for each question type, including the `||`
    defaults of the scale slider;
  - the button;
  - its state class.
- `QuestionLogic` — the answer-capture hook: draft value, error, submitted
  flag, draft persistence, and `validate` / `submit` / `back`.
- `CommonQuestionRenderer` — the second renderer, built on the hook.
  Lemmas compare it with the first renderer: where their widgets agree,
  and where their validation differs.
- `PatientForm` and `CommonPatientForm` — the two patient forms:
  - the field and language handlers;
  - the guard chain (client first, then a non-blank name);
  - the patient draft, where empty optional fields become absent;
  - the second form's name-field flag.

Collaborators that cannot be seen are parameters:

- The backend calls are functions returning `Reply<T>` (`Ok(value)` or
  `Failed(cause)`): `createPatient`, `fetchQuestions`, and the response
  submission.
- `Number(...)`, `parseInt(...)` and `new RegExp(p).test(v)` are the
  parameters `toNumber`, `parseInt` and `matches`.
- Whether a `saveResponse` call throws is the boolean `saveFails`.
- Browser local storage is the `DraftStorage` object.

Things the model makes visible about the code:

- `setPatient` catches every failure. So neither patient form's `catch`
  can run, and an accepted form always navigates to `/questionnaire`
  (`PatientForm.PatientFormState.HandleSubmit`). If the backend refused
  the patient, the store keeps whatever patient it held before. With no
  earlier patient, the questionnaire page then redirects home. With one,
  for instance after returning to the form with the browser's back
  button, the page opens the earlier patient's questionnaire.
- When the patient is created but fetching questions fails, the new
  patient is kept together with the old question list. A failure is not
  rolled back to the state before the call.
- `saveResponse` accepts any base-question id, including ids not among
  the fetched questions. `setPatient` also keeps earlier records.
- Nothing stops a second submission of the same answers once the session
  is completed (`ResubmissionNotGuarded`). The page's submission effect
  depends on a `submitResponses` function that the store creates anew on
  every render, so the effect runs again after every flag change. Raising
  the submitting flag, a success and a failure all leave the trigger on
  and the request unchanged (`EffectStaysArmed`). So a second identical
  request goes out while the first is still outstanding. Another follows a
  success, and after a failure one follows every flag change. The other
  page lemmas describe the first request only.
- String lengths in the validation rules are `value.length`, which counts
  UTF-16 code units. A character outside the Basic Multilingual Plane
  counts twice (`AstralCharactersCountTwice`).
- The `||` defaults in the page's renderer replace an explicit scale bound
  of 0. The second renderer uses `??` and keeps the 0
  (`ZeroMaxSeparatesVariants`).
- The first renderer throws on a multiple-choice question without a
  metadata bag. This is modelled as `InputField` returning `None`.

## Model

| member | source | states |
|---|---|---|
| Js.Utf16LengthBounds | src/components/QuestionRenderer.tsx:61-66 | `value.length` lies between the number of characters and twice that, and equals the number of characters exactly when none is outside the Basic Multilingual Plane |
| Js.TrimEmptyIffBlank | src/components/QuestionRenderer.tsx:35 | `s.trim()` is empty exactly when every character of `s` is ECMAScript whitespace |
| QuestionnaireContext.Reset | src/context/QuestionnaireContext.tsx:15-22 | the client is kept; patient, questions, index, responses and both flags return to their initial values |
| QuestionnaireContext.SelectClient | src/context/QuestionnaireContext.tsx:24-27 | selecting a client stores it and resets the patient, questions, index, responses and both flags |
| QuestionnaireContext.SelectClientForgets | src/context/QuestionnaireContext.tsx:15-27 | after selecting a client the session no longer depends on anything recorded before, and it satisfies the invariant |
| QuestionnaireContext.ResponseFor | src/context/QuestionnaireContext.tsx:47-58 | the stored record carries the patient's id, the question id and the answer; missing metadata becomes the empty bag |
| QuestionnaireContext.Record | src/context/QuestionnaireContext.tsx:47-59 | without a patient nothing changes; otherwise the key set gains the id, the record at the id is the new one, every other record and every other field is kept |
| QuestionnaireContext.LastWriteWins | src/context/QuestionnaireContext.tsx:50-58 | saving twice under one id is the same as saving only the second answer |
| QuestionnaireContext.SavesCommute | src/context/QuestionnaireContext.tsx:50-58 | saves for different ids give the same session in either order |
| QuestionnaireContext.RecordCount | src/context/QuestionnaireContext.tsx:50-58 | the number of records grows by one exactly when the id was not yet answered |
| QuestionnaireContext.Request | src/context/QuestionnaireContext.tsx:61-66 | a request goes out exactly when there is a patient and at least one record; it carries the patient's id and exactly the stored records |
| QuestionnaireContext.BeginSubmit | src/context/QuestionnaireContext.tsx:62-64 | when a request goes out, the submitting flag is raised and nothing else changes; otherwise nothing changes |
| QuestionnaireContext.EndSubmit | src/context/QuestionnaireContext.tsx:65-72 | once the call resolves, the submitting flag is cleared; the session is completed if it already was or the call succeeded; nothing else changes |
| QuestionnaireContext.Submit | src/context/QuestionnaireContext.tsx:61-73 | without a request nothing changes; otherwise success completes the session, failure leaves the completed flag as it was, and the submitting flag ends cleared |
| QuestionnaireContext.KeyedValuesCount | src/context/QuestionnaireContext.tsx:66 | when records are keyed by their own id, `Object.values` has as many distinct records as there are keys |
| QuestionnaireContext.SubmissionSendsEachAnswerOnce | src/context/QuestionnaireContext.tsx:61-66 | a submission sends every stored record, nothing else, and one record per answered question |
| QuestionnaireContext.ResubmissionNotGuarded | src/context/QuestionnaireContext.tsx:61-73 | after a submission, successful or not, the same request would be sent again |
| QuestionnaireContext.FetchArgs | src/context/QuestionnaireContext.tsx:34-38 | questions are fetched exactly when the created patient has a non-empty client id and language, and with those two values |
| QuestionnaireContext.RegisterPatient | src/context/QuestionnaireContext.tsx:29-44 | a failed creation changes nothing; a created patient is stored; the questions become the fetched list, or stay as they were when no fetch happens or it fails; nothing else changes |
| QuestionnaireContext.TransitionsKeepInv | src/context/QuestionnaireContext.tsx:15-73 | reset, client selection, saving, registration and submission all keep the invariant |
| QuestionnaireContext.QuestionnaireProvider.constructor | src/context/QuestionnaireContext.tsx:7-13 | the store starts empty: no client, no patient, no questions, index 0, no records, both flags down |
| QuestionnaireContext.QuestionnaireProvider.ResetQuestionnaireState | src/context/QuestionnaireContext.tsx:15-22 | everything but the client returns to its initial value |
| QuestionnaireContext.QuestionnaireProvider.SetClient | src/context/QuestionnaireContext.tsx:24-27 | the store becomes `SelectClient` of the old state |
| QuestionnaireContext.QuestionnaireProvider.SetPatient | src/context/QuestionnaireContext.tsx:29-44 | the store becomes `RegisterPatient` of the old state; the fetch arguments are returned when a fetch was made |
| QuestionnaireContext.QuestionnaireProvider.SaveResponse | src/context/QuestionnaireContext.tsx:47-59 | the store becomes `Record` of the old state |
| QuestionnaireContext.QuestionnaireProvider.SubmitResponses | src/context/QuestionnaireContext.tsx:61-73 | the store becomes `Submit` of the old state, and the request sent is `Request` of the old state |
| QuestionnaireContext.QuestionnaireProvider.SetQuestions | src/context/QuestionnaireContext.tsx:9 | only the question list changes |
| QuestionnaireContext.QuestionnaireProvider.SetCurrentQuestionIndex | src/context/QuestionnaireContext.tsx:10 | only the index changes |
| QuestionnairePage.Render | src/pages/QuestionnairePage.tsx:38-57 | saving screen exactly when there are a patient, questions and a submission in flight; a question exactly when there is a patient, no submission and the index is in range; the question shown is the one at the index, with progress index+1 of the list length |
| QuestionnairePage.Redirect | src/pages/QuestionnairePage.tsx:21-30 | home exactly when there is no patient, the completion page exactly when there is a patient and the session is completed, otherwise none |
| QuestionnairePage.ShouldSubmit | src/pages/QuestionnairePage.tsx:32-36 | when the trigger holds, there are questions and none is on screen; when it does not, with a patient, questions and no submission in flight, a question is on screen |
| QuestionnairePage.EffectStaysArmed | src/pages/QuestionnairePage.tsx:32-36 | raising the submitting flag and the call's outcome, success or failure, leave the trigger on and the same request pending, so every re-run of the effect sends it again |
| QuestionnairePage.AfterAnswer | src/pages/QuestionnairePage.tsx:32-61 | a refused answer changes nothing; an accepted one advances the index by one, records the answer and keeps client, patient and questions; before the end the flags stay, and at the end a submission resolves: submitting cleared, completed on success |
| QuestionnairePage.Advance | src/pages/QuestionnairePage.tsx:59-61 | the index goes up by one and nothing else changes |
| QuestionnairePage.EmptyListNeverSubmits | src/pages/QuestionnairePage.tsx:32-40 | with no questions the submission effect never fires and the spinner is shown |
| QuestionnairePage.AskingExcludesSubmission | src/pages/QuestionnairePage.tsx:32-57 | while a question is on screen the submission trigger is off, and the other way round |
| QuestionnairePage.SavingWhileSubmitting | src/pages/QuestionnairePage.tsx:42-51 | while the submission call is outstanding, the saving screen is shown |
| QuestionnairePage.LastAnswerTriggersSubmission | src/pages/QuestionnairePage.tsx:32-36 | recording the last answer and advancing fires the effect, and a request does go out |
| QuestionnairePage.SuccessRedirectsToCompletion | src/pages/QuestionnairePage.tsx:27-29 | a successful submission redirects to the completion page |
| QuestionnairePage.FailureStaysOnPage | src/pages/QuestionnairePage.tsx:21-51 | a failed submission neither redirects nor stays on the saving screen |
| QuestionnairePage.EarlierAnswerShowsNext | src/pages/QuestionnairePage.tsx:53-61 | an accepted answer to a question before the last shows the next question |
| QuestionnairePage.FinalAnswerSubmits | src/pages/QuestionnairePage.tsx:21-61 | an accepted last answer submits; success leads to the completion page; failure stays on the page, off the saving screen, with every answer kept |
| QuestionnairePage.HandleNext | src/pages/QuestionnairePage.tsx:59-61 | the store becomes `Advance` of the old state |
| QuestionnairePage.SubmissionEffect | src/pages/QuestionnairePage.tsx:32-36 | when the trigger holds, the store becomes `Submit` of the old state and the request is sent; otherwise nothing changes and nothing is sent |
| QuestionnairePage.AnswerCurrentQuestion | src/pages/QuestionnairePage.tsx:32-79 | renderer submit, then `handleNext`, then the effect: the store becomes `AfterAnswer` of the old state and the renderer's verdict; the request sent is the stored records of the advanced state exactly when the answer is accepted and it was the last, otherwise none; the renderer keeps its value, shows the verdict's error and is marked submitted on acceptance |
| QuestionRenderer.IntegerVerdict | src/components/QuestionRenderer.tsx:42-58 | NaN is refused first, then a value below `min`, then one above `max`; accepted exactly when none applies |
| QuestionRenderer.StringVerdict | src/components/QuestionRenderer.tsx:60-77 | a truthy `minLength` is checked first, then a truthy `maxLength`, both against the length in UTF-16 code units; once both pass, a mismatch with a non-empty pattern gives the format error with `patternMessage` or the default text, and only then; accepted exactly when none applies |
| QuestionRenderer.AstralCharactersCountTwice | src/components/QuestionRenderer.tsx:61-69 | two emoji exceed `maxLength: 3`, and one emoji meets `minLength: 2` |
| QuestionRenderer.Message | src/components/QuestionRenderer.tsx:36-74 | the fixed texts of the required and number errors; a format error shows its own message; every other text is non-empty |
| QuestionRenderer.ValidateResponse | src/components/QuestionRenderer.tsx:32-83 | "required" exactly when the rule is set and the value is blank; an empty value passes unless required; other datatypes are never checked; INTEGER and STRING values are judged as above |
| QuestionRenderer.ScaleSlider | src/components/QuestionRenderer.tsx:179-198 | bounds and step come from the rules when truthy, otherwise 0, 10 and 1; labels and the current value fall back the same way |
| QuestionRenderer.InputField | src/components/QuestionRenderer.tsx:98-216 | no widget (a thrown error) exactly for a multiple-choice question without metadata; "unsupported" exactly for the types without a case; TEXT, MULTIPLE_CHOICE, BOOLEAN, SCALE and DATE get their widgets |
| QuestionRenderer.Supported | src/components/QuestionRenderer.tsx:99-215 | the types without a case are exactly NUMBER, TIME, DATETIME and FILE |
| QuestionRenderer.ButtonLabel | src/components/QuestionRenderer.tsx:234-241 | "Response saved" once submitted, else "Next" |
| QuestionRenderer.ExistingDraft | src/components/QuestionRenderer.tsx:21-30 | an earlier answer is loaded and marked submitted; without one the draft is empty and not submitted |
| QuestionRenderer.DraftAfterSaveRestoresAnswer | src/components/QuestionRenderer.tsx:21-30 | after an answer is saved, remounting the renderer shows it again, as submitted |
| QuestionRenderer.RendererState.constructor | src/components/QuestionRenderer.tsx:12-14 | empty value, no error, not submitted |
| QuestionRenderer.RendererState.SyncWithResponses | src/components/QuestionRenderer.tsx:21-30 | the draft becomes `ExistingDraft` and the error is kept |
| QuestionRenderer.RendererState.HandleChange | src/components/QuestionRenderer.tsx:93-96 | the value is replaced and any error cleared |
| QuestionRenderer.RendererState.HandleSubmit | src/components/QuestionRenderer.tsx:85-91 | an accepted value is saved through the store and marked submitted, and `onNext` is due; a refused one shows its error and changes nothing else |
| QuestionLogic.RequiredCheck | src/hooks/useQuestionLogic.ts:40-49 | refused exactly when the rules require an answer and the value is blank, with the required text |
| QuestionLogic.EmptyRulesAcceptAll | src/hooks/useQuestionLogic.ts:52 | re-validating against `{}` in `submit` never refuses |
| QuestionLogic.PersistDraft | src/hooks/useQuestionLogic.ts:32-38 | a non-empty value is stored under the question id, replacing any earlier draft; an empty one stores nothing; other drafts are kept |
| QuestionLogic.PersistDraftOverwrites | src/hooks/useQuestionLogic.ts:32-38 | of two drafts for one question, the later non-empty one is all that remains |
| QuestionLogic.DraftStorage.constructor | src/hooks/useQuestionLogic.ts:34 | no drafts stored |
| QuestionLogic.QuestionLogicState.constructor | src/hooks/useQuestionLogic.ts:18-20 | empty value, no error, not submitted |
| QuestionLogic.QuestionLogicState.SyncWithResponses | src/hooks/useQuestionLogic.ts:24-30 | an earlier answer is loaded and marked submitted; without one the draft is left as it is |
| QuestionLogic.QuestionLogicState.PersistProgress | src/hooks/useQuestionLogic.ts:32-38 | the storage becomes `PersistDraft` of what it held |
| QuestionLogic.QuestionLogicState.SetValue | src/hooks/useQuestionLogic.ts:18 | only the value changes |
| QuestionLogic.QuestionLogicState.Validate | src/hooks/useQuestionLogic.ts:40-49 | the error becomes `RequiredCheck` of the value, and the result says whether it passed |
| QuestionLogic.QuestionLogicState.Submit | src/hooks/useQuestionLogic.ts:51-63 | on a successful save the store records the value, the draft is submitted with no error, and `onNext` is scheduled when given; on a failing save the failure text is shown and nothing else changes |
| QuestionLogic.QuestionLogicState.Back | src/hooks/useQuestionLogic.ts:65-67 | `onPrevious` is called exactly when given |
| CommonQuestionRenderer.ScaleSlider | src/components/common/QuestionRenderer.tsx:141-144 | only a missing bound or step gives 0, 10 or 1; an explicit value, 0 included, is kept |
| CommonQuestionRenderer.ChoiceOptions | src/components/common/QuestionRenderer.tsx:67 | the options listed in the metadata, or none when the bag or the list is missing |
| CommonQuestionRenderer.InputField | src/components/common/QuestionRenderer.tsx:45-180 | always a widget; "unsupported" exactly for the types without a case; TEXT, MULTIPLE_CHOICE, BOOLEAN, SCALE and DATE get their widgets |
| CommonQuestionRenderer.VariantsAgree | src/components/common/QuestionRenderer.tsx:45-180 | the two renderers pick the same widget unless a scale setting is an explicit 0 or a multiple-choice question has no metadata |
| CommonQuestionRenderer.ZeroMaxSeparatesVariants | src/components/common/QuestionRenderer.tsx:141-144 | with `max: 0`, the first renderer's slider ends at 10 and this one's at 0 |
| CommonQuestionRenderer.SubmitLabel | src/components/common/QuestionRenderer.tsx:222 | "Finish" on the last question, else "Saved" once submitted, else "Next" |
| CommonQuestionRenderer.Buttons | src/components/common/QuestionRenderer.tsx:207-221 | Back is never disabled; submit is disabled exactly once submitted |
| CommonQuestionRenderer.OnlyRequiredRuleShared | src/components/common/QuestionRenderer.tsx:39-43 | every answer the first renderer accepts passes here, and both refuse for "required" on exactly the same answers |
| CommonQuestionRenderer.RequiredTextShared | src/hooks/useQuestionLogic.ts:44 | the hook words the required refusal exactly as the first renderer does |
| CommonQuestionRenderer.DatatypeRulesIgnored | src/components/common/QuestionRenderer.tsx:39-43 | "15" for an INTEGER question with `max: 10` passes here and is refused by the first renderer |
| CommonQuestionRenderer.HandleChange | src/components/common/QuestionRenderer.tsx:32-37 | only the value changes; any error stays |
| CommonQuestionRenderer.HandleSubmit | src/components/common/QuestionRenderer.tsx:39-43 | a blank required answer shows the required text and changes nothing else; otherwise the hook's `submit` runs, with its two outcomes |
| PatientForm.Update | src/components/PatientForm.tsx:23-29 | the named field takes the value; every other field and the language are kept |
| PatientForm.DefaultLanguage | src/components/PatientForm.tsx:8 | the client's default language when present and non-empty, else "en" |
| PatientForm.InitialForm | src/components/PatientForm.tsx:14-21 | every field empty and the language the default |
| PatientForm.Optional | src/components/PatientForm.tsx:60-64 | an empty field becomes absent, and reading an absent field back as "" recovers the input |
| PatientForm.Draft | src/components/PatientForm.tsx:56-66 | no id, the client's id, the name as typed, empty optional fields absent, the age parsed only when given, the chosen language |
| PatientForm.ErrorText | src/components/PatientForm.tsx:42-50 | no refusal text is empty, so the error banner always appears for a refusal |
| PatientForm.DisplayedError | src/components/PatientForm.tsx:39-54 | after a submission the banner reads "No client selected. Please go back and select a client." without a client, "Please enter your name." for a blank name, and nothing once the form is accepted |
| PatientForm.SubmitCaption | src/components/PatientForm.tsx:186-194 | "Saving..." exactly while submitting, else "Continue" |
| PatientForm.CheckSubmission | src/components/PatientForm.tsx:39-66 | a missing client is refused first, then a blank name; otherwise the draft is ready |
| PatientForm.PatientFormState.constructor | src/components/PatientForm.tsx:8-21 | an empty form in the default language, with no error and not submitting |
| PatientForm.PatientFormState.HandleChange | src/components/PatientForm.tsx:23-29 | the form becomes `Update` of the old form; nothing else changes |
| PatientForm.PatientFormState.HandleLanguageSelect | src/components/PatientForm.tsx:31-37 | the picker and the form's language both take the code |
| PatientForm.PatientFormState.HandleSubmit | src/components/PatientForm.tsx:39-74 | a refusal shows its error and leaves the store untouched; an accepted form clears the error, registers the draft (the store becomes `RegisterPatient`), ends with submitting cleared and navigates to the questionnaire |
| CommonPatientForm.IsNameInvalid | src/components/common/PatientForm.tsx:78 | the name is flagged exactly when it is blank and an error is present |
| CommonPatientForm.ErrorText | src/components/common/PatientForm.tsx:43-51 | no refusal text is empty, so the error banner always appears for a refusal |
| CommonPatientForm.DisplayedError | src/components/common/PatientForm.tsx:40-55 | after a submission the banner reads "No organization selected. Please go back and select one." without a client, "Please enter your full name." for a blank name, and nothing once the form is accepted |
| CommonPatientForm.BlankNameRefusalFlagsName | src/components/common/PatientForm.tsx:48-51 | a blank-name refusal always flags the name field |
| CommonPatientForm.FlagFollowsName | src/components/common/PatientForm.tsx:43-78 | a missing-client error flags the name exactly when it is blank; an accepted form is never flagged |

## Left out

- HTTP: the axios calls in `src/services/api.ts` are collaborator parameters that either return a value or fail.
- Asynchrony: each `await` is a call that completes before the next step, so interleavings of concurrent handlers are not modelled.
- QuestionnairePage.SubmissionEffect: one run of the effect is modelled. Nothing models the sequence of re-runs after every provider render, or the duplicate requests they send, which `EffectStaysArmed` shows are due.
- React state batching is not modelled: each setter applies at once.
- The 300 ms `setTimeout` before the hook's `onNext`: the model only reports that `onNext` is scheduled.
- Order: the order of `Object.values` is not modelled; the request carries the records as a set.
- `Number`, `parseInt` and `RegExp` are opaque parameters. Their quirks are not modelled: whitespace parses as 0, decimals pass the INTEGER check, an invalid pattern throws.
- Numbers are reals without infinities or `-0`, and the rule bag's values are taken as numbers when present.
- QuestionRenderer.IntegerVerdict: a `null` bound is not modelled. The code tests `min`/`max` with `!== undefined`, so a JSON `null` bound counts as present and compares as 0: `max: null` refuses every positive answer with "Max value is null". The model's `None` stands for `undefined` only.
- The metadata bag is narrowed to its option list, and other JSON contents are not modelled.
- No model claims option membership for MULTIPLE_CHOICE answers or step checks for SCALE answers, because neither renderer performs them.
- The invariant that responses only name fetched questions is not modelled, because the code does not enforce it. The same goes for "at most one submission per answer set".
- Going back is not modelled on the wired page, because it has no go-back transition. The hook's `back` is modelled.
- PatientForm.PatientFormState.HandleSubmit: its contract states the value of `isSubmitting` only after the call; the `true` value during registration is not stated.
- PatientForm.PatientFormState.HandleSubmit: the `catch` that shows "Error creating patient" is not modelled, because `setPatient` never throws.
- CommonPatientForm: its state class and handlers are those of `PatientForm` (the code is the same apart from texts and the name flag).
- Only the error texts are modelled, not the markup around them.
- QuestionnaireContext.QuestionnaireProvider.SetCurrentQuestionIndex: the index is a `nat`, so a negative index cannot be set.
- The client selector's list filtering, the progress-bar percentage, the language list and the home, completion and patient-info pages are routing and display only.

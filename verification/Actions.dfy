/** The server action `submitUserMessage`: one chat submission is triaged by
    the emergency-detection flow and, unless it is a confident emergency,
    answered by the health Q&A flow.

    The two flows are not called from the model: their outcomes for this
    submission are parameters, and the reply records which requests the
    action issued, in order. A flow that is not in that trace was never
    invoked, and its outcome has no influence on the reply. */
module Actions {
  import opened Common
  import opened Flows

  datatype Status = Idle | Success | Error | Emergency

  /** An entry of the chat transcript. The page imports this type from the
      action module, whose shown text does not declare it; its fields are
      kept abstract. */
  datatype ChatMessage = ChatMessage(id: string, role: string, text: string)

  /** The `data` part of a form state. `firstAid` and `hospitals` are read by
      the page but never written by the action, so the action leaves them
      absent. */
  datatype Payload = Payload(
    userInput: string,
    emergencyType: Option<string>,
    location: Option<string>,
    firstAid: Option<string>,
    hospitals: Option<seq<Facility>>)

  /** The state the action hands back to the page. `messages` is read by the
      page and, like `firstAid` and `hospitals`, never set by the action. */
  datatype FormState = FormState(
    status: Status,
    message: Option<string>,
    data: Option<Payload>,
    messages: Option<seq<ChatMessage>>)

  /** The fields of the submitted form: `message`, `language`, `location`.
      A field that was not appended is absent. */
  datatype Submission = Submission(
    message: Option<string>,
    language: Option<string>,
    location: Option<string>)

  /** A request issued to one of the two flows. */
  datatype ServiceCall = Detect(detection: DetectionRequest) | Ask(question: QaRequest)

  /** The new form state together with the flow requests made to reach it. */
  datatype Reply = Reply(state: FormState, calls: seq<ServiceCall>)

  /** `{ status: 'idle' }`, the page's initial state and the reply to an empty message. */
  const IdleState := FormState(Idle, None, None, None)

  /** An assessment is an emergency only when its confidence is strictly above this. */
  const ConfidenceThreshold: real := 0.6

  /** Category used when the detection flow names no (or an empty) emergency type. */
  const UnspecifiedType := "unspecified"

  /** The only text the user sees when the Q&A flow fails. */
  const SafeErrorMessage := "Sorry, I could not process your request. Please try again."

  /** The category carried by an emergency reply: `emergencyType || 'unspecified'`. */
  function CategoryOf(a: Assessment): (c: string)
    ensures c != ""
    ensures Truthy(a.emergencyType) ==> c == a.emergencyType.value
    ensures !Truthy(a.emergencyType) ==> c == UnspecifiedType
  {
    OrElse(a.emergencyType, Some(UnspecifiedType)).value
  }

  /** The decision rule: detection resolved, said "emergency", and is
      strictly more confident than the threshold. */
  predicate Flagged(detection: Outcome<Assessment>) {
    detection.Ok? && detection.value.isEmergency && detection.value.confidenceLevel > 0.6
  }

  /** `submitUserMessage(prevState, formData)` with the detection flow
      resolving to `detection` and the Q&A flow resolving to `answer`. */
  function Submit(prev: FormState, form: Submission,
                  detection: Outcome<Assessment>, answer: Outcome<QaAnswer>): (r: Reply)
    // an empty or missing message is idle and calls nothing
    ensures !Truthy(form.message) <==> r.state.status == Idle
    ensures !Truthy(form.message) ==> r == Reply(IdleState, [])
    // otherwise detection always runs first, on the submitted fields
    ensures Truthy(form.message) ==>
      1 <= |r.calls| <= 2 &&
      r.calls[0] == Detect(DetectionRequest(form.message.value, form.language, form.location))
    // every non-idle reply echoes the user input
    ensures Truthy(form.message) ==>
      r.state.data.Some? && r.state.data.value.userInput == form.message.value
    // the decision rule: flagged and strictly above the threshold
    ensures r.state.status == Emergency <==>
      Truthy(form.message) && detection.Ok? && detection.value.isEmergency &&
      detection.value.confidenceLevel > 0.6
    // an emergency carries the reason, category and location, and asks no question
    ensures r.state.status == Emergency ==>
      |r.calls| == 1 &&
      r.state.message == Some(detection.value.reason) &&
      r.state.data.value.emergencyType == Some(CategoryOf(detection.value)) &&
      r.state.data.value.location == form.location
    // any other non-idle reply comes from the Q&A flow, asked once
    ensures r.state.status in {Success, Error} ==>
      r.calls == [r.calls[0], Ask(QaRequest(form.message.value, form.language))] &&
      r.state.data.value.emergencyType.None? && r.state.data.value.location.None?
    ensures r.state.status == Success <==>
      (Truthy(form.message) && !Flagged(detection) && answer.Ok?)
    ensures r.state.status == Success ==> r.state.message == Some(answer.value.answer)
    ensures r.state.status == Error <==>
      (Truthy(form.message) && !Flagged(detection) && answer.Fail?)
    ensures r.state.status == Error ==> r.state.message == Some(SafeErrorMessage)
    // the fields the page reads are never produced
    ensures r.state.messages.None?
    ensures r.state.data.Some? ==>
      r.state.data.value.firstAid.None? && r.state.data.value.hospitals.None?
  {
    if !Truthy(form.message) then
      Reply(IdleState, [])
    else
      var userInput := form.message.value;
      var detect := Detect(DetectionRequest(userInput, form.language, form.location));
      if detection.Ok? && detection.value.isEmergency
         && detection.value.confidenceLevel > ConfidenceThreshold then
        var a := detection.value;
        Reply(FormState(Emergency, Some(a.reason),
                        Some(Payload(userInput, Some(CategoryOf(a)), form.location, None, None)),
                        None),
              [detect])
      else
        // a failed detection is logged and treated like a non-emergency
        var calls := [detect, Ask(QaRequest(userInput, form.language))];
        var data := Some(Payload(userInput, None, None, None, None));
        match answer
        case Ok(qa) => Reply(FormState(Success, Some(qa.answer), data, None), calls)
        case Fail => Reply(FormState(Error, Some(SafeErrorMessage), data, None), calls)
  }

  /** The reply never depends on the previous form state. */
  lemma IgnoresPreviousState(p: FormState, q: FormState, form: Submission,
                             detection: Outcome<Assessment>, answer: Outcome<QaAnswer>)
    ensures Submit(p, form, detection, answer) == Submit(q, form, detection, answer)
  {
  }

  /** An empty message is answered without consulting either flow: whatever
      they would have returned, the reply is the same idle state. */
  lemma EmptyMessageIsIdle(prev: FormState, form: Submission,
                           d1: Outcome<Assessment>, a1: Outcome<QaAnswer>,
                           d2: Outcome<Assessment>, a2: Outcome<QaAnswer>)
    requires !Truthy(form.message)
    ensures Submit(prev, form, d1, a1) == Submit(prev, form, d2, a2) == Reply(IdleState, [])
  {
  }

  /** A confident emergency never reaches the Q&A flow: its outcome is irrelevant. */
  lemma EmergencySkipsQa(prev: FormState, form: Submission, detection: Outcome<Assessment>,
                         a1: Outcome<QaAnswer>, a2: Outcome<QaAnswer>)
    requires Submit(prev, form, detection, a1).state.status == Emergency
    ensures Submit(prev, form, detection, a1) == Submit(prev, form, detection, a2)
    ensures forall c :: c in Submit(prev, form, detection, a1).calls ==> c.Detect?
  {
  }

  /** Fail-open: a failed detection behaves exactly like an assessment that is
      not an emergency, so it can only lead to a Q&A success or error. */
  lemma DetectionFailureFallsOpen(prev: FormState, form: Submission, answer: Outcome<QaAnswer>,
                                  calm: Assessment)
    requires Truthy(form.message)
    requires !calm.isEmergency
    ensures Submit(prev, form, Fail, answer) == Submit(prev, form, Ok(calm), answer)
    ensures Submit(prev, form, Fail, answer).state.status == (if answer.Ok? then Success else Error)
  {
  }

  /** The threshold is strict: a flagged assessment at exactly 0.6, or below,
      is handed on to the Q&A flow. */
  lemma ThresholdIsStrict(prev: FormState, form: Submission, a: Assessment, answer: Outcome<QaAnswer>)
    requires Truthy(form.message)
    requires a.confidenceLevel <= 0.6
    ensures Submit(prev, form, Ok(a), answer).state.status != Emergency
    ensures |Submit(prev, form, Ok(a), answer).calls| == 2
  {
  }

  /** A chest-pain report flagged with confidence 0.9 is an emergency and
      triggers exactly one detection request. */
  lemma HeartAttackScenario(prev: FormState, answer: Outcome<QaAnswer>)
    ensures
      var form := Submission(Some("I have severe chest pain radiating to my arm"), Some("en"), None);
      var a := Assessment(true, Some("heart attack"), "Chest pain radiating to the arm", 0.9);
      var r := Submit(prev, form, Ok(a), answer);
      r.state.status == Emergency && r.state.data.value.emergencyType == Some("heart attack") &&
      |r.calls| == 1
  {
  }

  /** A dietary question assessed as no emergency is answered by one Q&A request. */
  lemma AnemiaQuestionScenario(prev: FormState)
    ensures
      var form := Submission(Some("What foods help with anemia?"), Some("en"), None);
      var a := Assessment(false, None, "A nutrition question", 0.1);
      var r := Submit(prev, form, Ok(a), Ok(QaAnswer("Leafy greens and lentils.")));
      r.state.status == Success && r.state.message == Some("Leafy greens and lentils.") &&
      |r.calls| == 2 && r.calls[1] == Ask(QaRequest("What foods help with anemia?", Some("en")))
  {
  }

  /** A flagged emergency with an empty type string is reported as "unspecified". */
  lemma EmptyTypeIsUnspecified(prev: FormState, form: Submission, answer: Outcome<QaAnswer>)
    requires Truthy(form.message)
    ensures Submit(prev, form, Ok(Assessment(true, Some(""), "r", 0.7)), answer)
              .state.data.value.emergencyType == Some(UnspecifiedType)
  {
  }
}

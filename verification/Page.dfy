/** The chat page: how it folds each form state returned by the action into
    its transcript and its emergency information, how a captured location is
    resubmitted, and how closing the emergency dialog clears the session. */
module Page {
  import opened Common
  import opened Flows
  import opened Actions
  import EmergencyDialog

  /** What the emergency dialog shows. `reason` is taken from the form
      state's message, which the page asserts (but does not check) is set. */
  datatype EmergencyInfo = EmergencyInfo(
    kind: string,
    reason: Option<string>,
    userInput: string,
    firstAid: Option<string>,
    hospitals: Option<seq<Facility>>)

  /** The page state the effect updates: the transcript and the open
      emergency session, if any (the dialog is shown exactly when it is set). */
  datatype PageState = PageState(messages: seq<ChatMessage>, emergencyInfo: Option<EmergencyInfo>)

  /** A destructive toast the effect may raise. */
  datatype Toast = Toast(title: string, description: Option<string>)

  /** The page state after the effect, and the toast it raised, if any. */
  datatype Effect = Effect(page: PageState, toast: Option<Toast>)

  const InitialPage := PageState([], None)

  /** An emergency state that carries a non-empty emergency type; other
      emergency states are ignored by the effect. */
  predicate TypedEmergency(fs: FormState) {
    fs.status == Emergency && fs.data.Some? && Truthy(fs.data.value.emergencyType)
  }

  /** A location update: a new emergency state with a non-empty location
      while an emergency session is already open. */
  predicate IsLocationUpdate(fs: FormState, ps: PageState) {
    fs.data.Some? && Truthy(fs.data.value.location) && ps.emergencyInfo.Some?
  }

  /** The `formState` effect of the page, run when a new form state arrives
      (or when the emergency information it depends on changes). Branches
      are taken in the order written in the page. */
  function ApplyFormState(fs: FormState, ps: PageState): (r: Effect)
    // idle changes nothing
    ensures fs.status == Idle ==> r.page == ps
    // the transcript is only ever extended
    ensures ps.messages <= r.page.messages
    // a success or error appends the state's messages and keeps the session
    ensures fs.status in {Success, Error} ==>
      r.page.emergencyInfo == ps.emergencyInfo &&
      r.page.messages == ps.messages + fs.messages.GetOr([])
    // an emergency state without a type changes nothing
    ensures fs.status == Emergency && !TypedEmergency(fs) ==> r.page == ps
    // a typed emergency always leaves a session open
    ensures TypedEmergency(fs) ==> r.page.emergencyInfo.Some?
    // a location update keeps the original type, reason and input and adds no messages
    ensures TypedEmergency(fs) && IsLocationUpdate(fs, ps) ==>
      var before := ps.emergencyInfo.value;
      var after := r.page.emergencyInfo.value;
      after.kind == before.kind && after.reason == before.reason &&
      after.userInput == before.userInput && r.page.messages == ps.messages
    // a fresh emergency describes the new form state
    ensures TypedEmergency(fs) && !IsLocationUpdate(fs, ps) ==>
      var after := r.page.emergencyInfo.value;
      after.kind == fs.data.value.emergencyType.value && after.reason == fs.message &&
      after.userInput == fs.data.value.userInput &&
      r.page.messages == ps.messages + fs.messages.GetOr([])
    // first aid is replaced only by a non-empty value
    ensures TypedEmergency(fs) && Truthy(fs.data.value.firstAid) ==>
      r.page.emergencyInfo.value.firstAid == fs.data.value.firstAid
    ensures TypedEmergency(fs) && !Truthy(fs.data.value.firstAid) ==>
      r.page.emergencyInfo.value.firstAid ==
        (if IsLocationUpdate(fs, ps) then ps.emergencyInfo.value.firstAid else None)
    // hospitals are replaced by any present list, else kept only on a location update
    ensures TypedEmergency(fs) ==>
      r.page.emergencyInfo.value.hospitals ==
        (if fs.data.value.hospitals.Some? then fs.data.value.hospitals
         else if IsLocationUpdate(fs, ps) then ps.emergencyInfo.value.hospitals
         else None)
    // the error toast branch is never taken: errors are handled by the first branch
    ensures r.toast.None?
  {
    if fs.status == Idle then
      Effect(ps, None)
    else if fs.status == Success || fs.status == Error then
      var messages := if fs.messages.Some? then ps.messages + fs.messages.value else ps.messages;
      Effect(PageState(messages, ps.emergencyInfo), None)
    else if TypedEmergency(fs) then
      var data := fs.data.value;
      var update := IsLocationUpdate(fs, ps);
      var current :=
        if update then ps.emergencyInfo.value
        else EmergencyInfo(data.emergencyType.value, fs.message, data.userInput, None, None);
      var updated := current.(
        firstAid := OrElse(data.firstAid, current.firstAid),
        hospitals := if data.hospitals.Some? then data.hospitals
                     else if update then ps.emergencyInfo.value.hospitals
                     else None);
      var messages :=
        if !update && fs.messages.Some? then ps.messages + fs.messages.value else ps.messages;
      Effect(PageState(messages, Some(updated)), None)
    else if fs.status == Error then
      Effect(ps, Some(Toast("An error occurred", fs.message)))
    else
      Effect(ps, None)
  }

  /** `onClose` of the emergency dialog: the session is discarded, the
      transcript is kept. */
  function CloseDialog(ps: PageState): (r: PageState)
    ensures r.emergencyInfo.None? && r.messages == ps.messages
  {
    ps.(emergencyInfo := None)
  }

  /** Closing the dialog does not last while the page still holds a typed
      emergency state: the effect depends on the emergency information, so
      clearing it runs the effect again on the same state, and with no open
      session that is not a location update, so a fresh session describing
      the state is opened at once. */
  lemma CloseIsUndoneByRerun(fs: FormState, ps: PageState)
    requires TypedEmergency(fs)
    ensures var after := ApplyFormState(fs, CloseDialog(ps)).page;
      after.emergencyInfo.Some? &&
      after.emergencyInfo.value.kind == fs.data.value.emergencyType.value &&
      after.emergencyInfo.value.reason == fs.message &&
      after.emergencyInfo.value.userInput == fs.data.value.userInput
  {
  }

  /** The `"lat,lon"` location string; `show` is the number-to-string
      conversion of the platform, kept abstract. */
  function LocationKey(g: EmergencyDialog.Geolocation, show: real -> string): (k: string)
    ensures Truthy(Some(k))
    ensures |k| == |show(g.latitude)| + 1 + |show(g.longitude)| && k[|show(g.latitude)|] == ','
    ensures k[..|show(g.latitude)|] == show(g.latitude)
    ensures k[|show(g.latitude)| + 1..] == show(g.longitude)
  {
    show(g.latitude) + "," + show(g.longitude)
  }

  /** Splits a location string at its first comma, if it has one. */
  function SplitAtComma(k: string): Option<(string, string)>
    decreases |k|
  {
    if k == [] then None
    else if k[0] == ',' then Some(([], k[1..]))
    else
      match SplitAtComma(k[1..])
      case None => None
      case Some(parts) => Some(([k[0]] + parts.0, parts.1))
  }

  /** Splitting `a + "," + b` at the first comma gives back `a` and `b` when
      `a` has no comma of its own. */
  lemma {:induction false} SplitJoined(a: string, b: string)
    requires ',' !in a
    ensures SplitAtComma(a + "," + b) == Some((a, b))
    decreases |a|
  {
    if a == [] {
      assert a + "," + b == [','] + b;
    } else {
      assert (a + "," + b)[1..] == a[1..] + "," + b;
      SplitJoined(a[1..], b);
      assert [a[0]] + a[1..] == a;
    }
  }

  /** The location string determines both coordinate texts: when the
      latitude text has no comma (the platform writes numbers without one),
      splitting the key at its first comma gives back latitude and longitude. */
  lemma LocationKeyRoundTrip(g: EmergencyDialog.Geolocation, show: real -> string)
    requires ',' !in show(g.latitude)
    ensures SplitAtComma(LocationKey(g, show)) == Some((show(g.latitude), show(g.longitude)))
  {
    SplitJoined(show(g.latitude), show(g.longitude));
  }

  /** `handleLocationFound`: with an open session, resubmit the session's
      original input in the current language with the captured location;
      without one, submit nothing. */
  function HandleLocationFound(ps: PageState, language: string, g: EmergencyDialog.Geolocation,
                               show: real -> string): (r: Option<Submission>)
    ensures r.Some? <==> ps.emergencyInfo.Some?
    ensures r.Some? ==>
      r.value.message == Some(ps.emergencyInfo.value.userInput) &&
      r.value.language == Some(language) &&
      r.value.location == Some(LocationKey(g, show)) && Truthy(r.value.location)
  {
    match ps.emergencyInfo
    case None => None
    case Some(info) => Some(Submission(Some(info.userInput), Some(language), Some(LocationKey(g, show))))
  }

  /** Re-running the effect on the same form state (as happens when the
      emergency information it depends on changes) gives the same session;
      with no messages in the state, the whole page is unchanged. */
  lemma ReapplyIsStable(fs: FormState, ps: PageState)
    ensures
      var once := ApplyFormState(fs, ps).page;
      var twice := ApplyFormState(fs, once).page;
      twice.emergencyInfo == once.emergencyInfo &&
      (fs.messages.None? ==> twice == once)
  {
  }

  /** Whatever the action replies, its state never adds to the transcript,
      because the action never fills in `messages`. */
  lemma ActionRepliesAddNoMessages(ps: PageState, prev: FormState, form: Submission,
                                   detection: Outcome<Assessment>, answer: Outcome<QaAnswer>)
    ensures ApplyFormState(Submit(prev, form, detection, answer).state, ps).page.messages == ps.messages
  {
  }

  /** A location resubmission from an open session leaves the page exactly as
      it was, whatever the two flows answer: a renewed emergency is a
      location update that keeps the session (the action supplies no new
      first aid or hospitals), and any other reply keeps it too. */
  lemma LocationResubmissionKeepsSession(ps: PageState, prev: FormState, language: string,
                                         g: EmergencyDialog.Geolocation, show: real -> string,
                                         detection: Outcome<Assessment>, answer: Outcome<QaAnswer>)
    requires ps.emergencyInfo.Some?
    ensures
      var form := HandleLocationFound(ps, language, g, show).value;
      ApplyFormState(Submit(prev, form, detection, answer).state, ps).page == ps
  {
  }

  /** A location resubmission runs detection again with the location, and
      when that does not confirm the emergency it also asks the Q&A flow. */
  lemma LocationResubmissionMayAsk(ps: PageState, prev: FormState, language: string,
                                   g: EmergencyDialog.Geolocation, show: real -> string,
                                   answer: Outcome<QaAnswer>)
    requires ps.emergencyInfo.Some? && ps.emergencyInfo.value.userInput != ""
    ensures
      var form := HandleLocationFound(ps, language, g, show).value;
      var r := Submit(prev, form, Fail, answer);
      r.calls == [Detect(DetectionRequest(ps.emergencyInfo.value.userInput, Some(language),
                                          Some(LocationKey(g, show)))),
                  Ask(QaRequest(ps.emergencyInfo.value.userInput, Some(language)))]
  {
  }

  /** Something that can happen to the page's state. */
  datatype PageEvent = Arrive(fs: FormState) | Close

  function PageStep(ps: PageState, e: PageEvent): PageState {
    match e
    case Arrive(fs) => ApplyFormState(fs, ps).page
    case Close => CloseDialog(ps)
  }

  /** The page state after a sequence of events. */
  function PageRun(ps: PageState, events: seq<PageEvent>): PageState
    decreases |events|
  {
    if events == [] then ps else PageRun(PageStep(ps, events[0]), events[1..])
  }

  /** Over any sequence of form states and dialog closings, the transcript is
      only ever extended: what was shown stays, in order. */
  lemma {:induction false} TranscriptOnlyGrows(ps: PageState, events: seq<PageEvent>)
    ensures ps.messages <= PageRun(ps, events).messages
    decreases |events|
  {
    if events != [] {
      var next := PageStep(ps, events[0]);
      TranscriptOnlyGrows(next, events[1..]);
    }
  }

  /** Over any sequence of action replies and dialog closings, the transcript
      stays exactly as it was. */
  lemma {:induction false} ActionRunsKeepTranscript(ps: PageState, events: seq<PageEvent>)
    requires forall i :: 0 <= i < |events| && events[i].Arrive? ==> events[i].fs.messages.None?
    ensures PageRun(ps, events).messages == ps.messages
    decreases |events|
  {
    if events != [] {
      ActionRunsKeepTranscript(PageStep(ps, events[0]), events[1..]);
    }
  }

  /** No emergency session carries a hospital list. */
  predicate NoHospitals(ps: PageState) {
    ps.emergencyInfo.Some? ==> ps.emergencyInfo.value.hospitals.None?
  }

  /** The shape of every state the action returns: no messages, and no first
      aid or hospitals in its data. */
  predicate ActionShaped(fs: FormState) {
    fs.messages.None? &&
    (fs.data.Some? ==> fs.data.value.firstAid.None? && fs.data.value.hospitals.None?)
  }

  /** Every reply of the action has that shape. */
  lemma RepliesAreActionShaped(prev: FormState, form: Submission,
                               detection: Outcome<Assessment>, answer: Outcome<QaAnswer>)
    ensures ActionShaped(Submit(prev, form, detection, answer).state)
  {
  }

  /** Starting from a page without hospital lists, replies of the action and
      dialog closings never produce one. */
  lemma {:induction false} ActionRunsCarryNoHospitals(ps: PageState, events: seq<PageEvent>)
    requires NoHospitals(ps)
    requires forall i :: 0 <= i < |events| && events[i].Arrive? ==> ActionShaped(events[i].fs)
    ensures NoHospitals(PageRun(ps, events))
    decreases |events|
  {
    if events != [] {
      ActionRunsCarryNoHospitals(PageStep(ps, events[0]), events[1..]);
    }
  }

  /** On a page driven by the action alone, the emergency dialog never lists
      hospitals: whatever its location state, the entries (with their "Send
      Ambulance" buttons) are not shown, and its hospital section shows only
      while it is locating. */
  lemma HospitalEntriesNeverShown(events: seq<PageEvent>, dialog: EmergencyDialog.DialogState)
    requires forall i :: 0 <= i < |events| && events[i].Arrive? ==> ActionShaped(events[i].fs)
    ensures var ps := PageRun(InitialPage, events);
      ps.emergencyInfo.Some? ==>
        !EmergencyDialog.ShowsHospitalEntries(dialog, ps.emergencyInfo.value.hospitals) &&
        (EmergencyDialog.ShowsHospitalSection(dialog, ps.emergencyInfo.value.hospitals) <==>
         dialog.isLocating)
  {
    ActionRunsCarryNoHospitals(InitialPage, events);
  }
}

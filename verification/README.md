# Jeevan Rakshak triage core in Dafny

This project models the decision logic of a multilingual health-assistant
chat application. A user's message is first given to an emergency-detection
flow. If that flow flags an emergency with confidence strictly above 0.6,
the page opens an emergency dialog. Otherwise the message is answered by a
health Q&A flow. The model covers four parts:

- **Triage action** (`Actions`, `submitUserMessage`): empty input is idle,
  the strict 0.6 threshold decides emergencies, a failed detection falls
  through to Q&A (fail-open), and a failed Q&A yields one fixed safe message.
  Each flow's outcome is a parameter (`Ok(value)` or `Fail`). The reply
  lists the flow requests that were issued, so "never invoked" means "not in
  that list".
- **Page merge** (`Page`): the effect folds each form state into the
  transcript and the open emergency session. `handleLocationFound`
  resubmits the original input with a `"lat,lon"` location. Closing the
  dialog clears the session, but the effect then runs again, and while the
  last form state is a typed emergency it reopens a fresh session at once
  (`CloseIsUndoneByRerun`).
- **Emergency dialog** (`EmergencyDialog`): the triple (isLocating,
  location, locationError) and its transitions; the rule that the location
  is requested automatically only while nothing has been requested; which
  hospital parts are visible; and the simulated ambulance request.
- **Phone sign-in dialog** (`AuthDialog`): the phone pattern
  `^\+[1-9]\d{1,14}$` (the ITU-T Recommendation E.164 shape: country code
  first, at most 15 digits), the six-character OTP check, and the
  `isSendingOtp`, `isVerifyingOtp` and `otpSent` flags.

JavaScript truthiness is modelled exactly (`Common.Truthy`): an empty
string counts as missing in `!userInput`, in `emergencyType || 'unspecified'`,
in `data.location && emergencyInfo` and in `firstAid || …`.

The page reads `formState.messages`, `data.firstAid` and `data.hospitals`,
but the action's `FormState` never sets them. They are modelled as optional
fields that the action always leaves absent. Several consequences are proved:

- action replies never add to the transcript (`ActionRepliesAddNoMessages`);
- a location resubmission leaves the page exactly as it was
  (`LocationResubmissionKeepsSession`);
- the page's destructive-toast branch for `error` can never run, because
  the first branch already handles `error` (`ApplyFormState`, `r.toast.None?`);
- no emergency session ever carries a hospital list, so the dialog's
  hospital entries and "Send Ambulance" buttons are never shown
  (`HospitalEntriesNeverShown`).

Further behaviour of the code worth knowing:

- A location resubmission runs emergency detection again. When that run
  does not confirm the emergency, the resubmission also calls the Q&A flow
  (`Submit` in general; `LocationResubmissionMayAsk` for a failed detection).
- The dialog has no manual retry. The only location request is the
  automatic one, and it happens at most once per opened dialog
  (`AtMostOneRequest`).
- Ambulance dispatch is only a toast. No dispatch record exists.

## Model

| member | source | states |
|---|---|---|
| Actions.Submit | src/app/actions.ts:16-71 | Empty input is idle and calls nothing. Otherwise detection runs first on (input, language, location). The reply is an emergency iff detection resolved, flagged an emergency and has confidence > 0.6; an emergency carries reason, category and location and makes no Q&A call. Any other reply makes exactly one Q&A call: success carries the answer, failure carries the fixed safe message. Every non-idle reply echoes the input. messages, firstAid and hospitals are never set |
| Actions.CategoryOf | src/app/actions.ts:38 | The emergency category is the flow's type when it is non-empty, else "unspecified"; it is never empty |
| Actions.IgnoresPreviousState | src/app/actions.ts:16-22 | The reply does not depend on the previous form state |
| Actions.EmptyMessageIsIdle | src/app/actions.ts:24-26 | For an empty or missing message, the reply is idle whatever either flow would return |
| Actions.EmergencySkipsQa | src/app/actions.ts:30-42 | An emergency reply is the same for every Q&A outcome and contains only detection requests |
| Actions.DetectionFailureFallsOpen | src/app/actions.ts:43-70 | A failed detection gives the same reply as a non-emergency assessment, so it ends in Q&A success or error and never in an error of its own |
| Actions.ThresholdIsStrict | src/app/actions.ts:31 | A confidence of exactly 0.6 or lower is never an emergency, and the Q&A flow is called |
| Actions.HeartAttackScenario | src/app/actions.ts:30-41 | Chest pain flagged at confidence 0.9 is an emergency of type "heart attack" with one request |
| Actions.AnemiaQuestionScenario | src/app/actions.ts:49-60 | A non-emergency question is answered with the Q&A answer after one Q&A request |
| Actions.EmptyTypeIsUnspecified | src/app/actions.ts:38 | An empty emergency type string is reported as "unspecified" |
| Page.ApplyFormState | src/app/page.tsx:124-162 | Idle changes nothing, and the transcript is only extended. Success/error append the state's messages and keep the session. An emergency without a type changes nothing. A location update keeps type, reason and input and appends nothing; otherwise a fresh session is built from type, message and input. firstAid is replaced only by a non-empty value. hospitals takes the new list, else the old one on a location update, else nothing. The error toast is never raised |
| Page.CloseDialog | src/app/page.tsx:291-294 | The close handler itself clears the emergency session and keeps the transcript |
| Page.CloseIsUndoneByRerun | src/app/page.tsx:132-146 | Because the effect depends on the emergency information (line 162), clearing it re-runs the effect on the same form state. If that state is a typed emergency, the re-run is not a location update, so a fresh session with the state's type, message and input is opened again at once |
| Page.LocationKey | src/app/page.tsx:185 | The location string is the latitude text, a comma, then the longitude text, so it is never empty |
| Page.LocationKeyRoundTrip | src/app/page.tsx:185 | When the latitude text has no comma, splitting the location string at its first comma gives back the latitude and longitude texts |
| Page.SplitJoined | src/app/page.tsx:185 | Splitting `a + "," + b` at the first comma gives back `a` and `b` when `a` has no comma |
| Page.HandleLocationFound | src/app/page.tsx:180-188 | A resubmission happens iff a session is open; it reuses the session's original input and the current language, with the "lat,lon" location |
| Page.ReapplyIsStable | src/app/page.tsx:133-162 | Re-running the effect on the same form state yields the same session; with no messages in the state, the whole page is unchanged |
| Page.ActionRepliesAddNoMessages | src/app/page.tsx:127-150 | Applying any reply of the action leaves the transcript unchanged |
| Page.LocationResubmissionKeepsSession | src/app/page.tsx:133-146 | A location resubmission from an open session leaves the page unchanged, whatever the flows answer |
| Page.LocationResubmissionMayAsk | src/app/actions.ts:29-60 | A location resubmission runs detection with the location; if detection fails, the Q&A flow is also called |
| Page.RepliesAreActionShaped | src/app/actions.ts:16-71 | Every reply of the action has no messages, and its data has no first aid and no hospitals |
| Page.ActionRunsCarryNoHospitals | src/app/page.tsx:140-146 | From a page without hospital lists, action replies and dialog closings never give a session a hospital list |
| Page.HospitalEntriesNeverShown | src/components/emergency-dialog.tsx:113-124 | Starting from the initial page and driven by action replies only, the dialog never shows hospital entries, whatever its location state, and its hospital section shows exactly while it is locating |
| Page.TranscriptOnlyGrows | src/app/page.tsx:127-150 | Over any sequence of form states and dialog closings, the earlier transcript stays a prefix |
| Page.ActionRunsKeepTranscript | src/app/page.tsx:128-149 | Over any sequence of states without messages and dialog closings, the transcript is unchanged |
| EmergencyDialog.HandleGetLocation | src/components/emergency-dialog.tsx:50-59 | Starting a request clears the error and sets isLocating. Without platform support, it stops with the "not supported" error, isLocating false and no position request. The stored location is kept |
| EmergencyDialog.OnPosition | src/components/emergency-dialog.tsx:60-67 | On success the location is stored, onLocationFound receives the same coordinates, and isLocating is false |
| EmergencyDialog.OnPositionError | src/components/emergency-dialog.tsx:69-72 | On failure the permission error is set, isLocating is false, and the stored location is untouched |
| EmergencyDialog.AutoRequest | src/components/emergency-dialog.tsx:83-88 | The effect requests a location only when `HasRequestedLocation` (isLocating, a location or a non-empty error; lines 44-48) is false, and it holds afterwards |
| EmergencyDialog.VisibilityAcrossRequest | src/components/emergency-dialog.tsx:113-124 | With `ShowsHospitalSection` (line 113: locating, or entries shown) and `ShowsHospitalEntries` (line 124: location captured and a non-empty list): the section shows while a request is out. After a found position, a non-empty list shows the entries without the spinner, and a missing or empty list shows neither. With no location, a refused or unsupported request shows no section |
| EmergencyDialog.AmbulanceClick | src/components/emergency-dialog.tsx:76-81 | The ambulance action leaves the dialog state unchanged and only produces a notice naming the hospital |
| EmergencyDialog.RequestedStaysRequested | src/components/emergency-dialog.tsx:44-48 | Once a location was requested, it stays requested and no further position request is made |
| EmergencyDialog.AtMostOneRequest | src/components/emergency-dialog.tsx:83-88 | However often the effect runs and whatever the platform answers, an opened dialog requests the position at most once; a refused request is never repeated |
| EmergencyDialog.RunStaysConsistent | src/components/emergency-dialog.tsx:41-73 | While locating, neither location nor error is set; a location and an error never coexist; the only errors are the two fixed messages |
| EmergencyDialog.LoaderOrEntries | src/components/emergency-dialog.tsx:116-124 | In a consistent dialog, the spinner and the hospital entries never show together |
| AuthDialog.CheckPhone | src/components/auth-dialog.tsx:54 | A character-by-character scan accepts a number iff `ValidPhone` holds: '+', a digit 1-9, then 1 to 14 more digits (3 to 16 characters) |
| AuthDialog.ValidPhoneIsPlusDigits | src/components/auth-dialog.tsx:54 | `ValidPhone`, the predicate the send handler uses, accepts exactly a '+' followed by 2 to 15 digits, the first not 0 (the E.164 digit string) |
| AuthDialog.PhoneExamples | src/components/auth-dialog.tsx:54-58 | The help-text sample is accepted; a leading zero, no plus sign, one digit, sixteen digits or spaces are rejected |
| AuthDialog.BeginSend | src/components/auth-dialog.tsx:53-62 | The handler goes on to the sign-in call iff `ValidPhone` holds. A refused number leaves the state unchanged with the invalid-number toast. Otherwise only isSendingOtp changes, and it is raised |
| AuthDialog.SettleSend | src/components/auth-dialog.tsx:63-91 | Once the call resolves or fails, isSendingOtp is false. otpSent is raised iff the call succeeded (or it was already set). A success stores the confirmation handle; a failure changes nothing but the flag |
| AuthDialog.SendOtp | src/components/auth-dialog.tsx:53-92 | A rejected number makes no call and changes nothing. After an attempt isSendingOtp is false. otpSent is raised only by a successful send and never lowered. A success stores the confirmation handle |
| AuthDialog.BeginVerify | src/components/auth-dialog.tsx:94-103 | Verification starts iff `OtpLengthOk` holds (exactly 6 characters, digits not checked). A refused OTP leaves the state unchanged with the invalid-OTP toast. Otherwise only isVerifyingOtp changes, and it is raised |
| AuthDialog.SettleVerify | src/components/auth-dialog.tsx:104-125 | The OTP is confirmed iff a confirmation handle exists. The dialog closes iff that confirmation succeeded, and every other case is the failure toast. Only isVerifyingOtp changes, and it is lowered |
| AuthDialog.VerifyOtp | src/components/auth-dialog.tsx:94-126 | An OTP that is not 6 characters makes no call and changes nothing. A confirm call happens only with a handle. The dialog closes iff confirmation succeeded. A missing handle fails and keeps the dialog open. isVerifyingOtp ends false, and no other field changes |
| AuthDialog.OtpSentIsSticky | src/components/auth-dialog.tsx:71-72 | Once otpSent holds, no sequence of actions resets it |
| AuthDialog.InFlightAccounting | src/components/auth-dialog.tsx:62-125 | Handlers start and settle as separate events, and the buttons are hidden or disabled as rendered (lines 141-161). Each busy flag is up exactly while one call of its kind is outstanding: every start is matched by one settle, except the call still awaited. Sending and verifying are never in flight together |
| AuthDialog.OtpSentNeedsSuccessfulSend | src/components/auth-dialog.tsx:66-72 | Without a successful send, otpSent stays false |

## Left out

- The generative-AI flows (src/ai/flows/emergency-detection.ts, src/ai/flows/multilingual-health-qa.ts) are external. Only their input and output shapes are modelled, and each call is an opaque `Ok(value)` or `Fail`. That includes any input or output schema validation done inside the AI library.
- `Actions.Submit`: a form field that is missing is modelled as absent (`None`). In the source, `formData.get` returns `null` for it (actions.ts:20-22). That `null` is passed on as `location` (actions.ts:30). The page's own form has no location field (page.tsx:241-280), so ordinary submissions carry it. The detection flow declares `location` as an optional string (emergency-detection.ts:25-30), which admits a missing value but not `null`. If the AI library validates flow input against that schema, every ordinary submission fails detection and falls open to Q&A. Then only location resubmissions, which need an open session, could reach the emergency branch. The detection outcome is a free parameter, so the contract covers both readings, but the model does not tell `null` from absent. Nothing was executed to confirm either reading.
- The confidence is a `real`. A NaN confidence cannot be expressed; in the code it would compare false and fall through to Q&A. The 0-to-1 range is only a description and is not checked, so the model does not assume it.
- The hospital lookup tool (src/ai/tools/find-nearby-hospitals.ts) returns fixed mock data and is not wired into the flows shown. Only its `Facility` record shape is used.
- Speech recognition (page.tsx:82-122, 171-178) is a browser callback API.
- Rendering, scrolling, form resets and toasts are left out, except for the toast and notice values whose content matters to a property.
- Firebase initialisation, Google sign-in, sign-out and the reCAPTCHA widget (src/lib/firebase.ts, src/components/auth-button.tsx, src/components/app-header.tsx) are library I/O. A failing reCAPTCHA setup is folded into a failed send outcome.
- Coordinates are abstract: number-to-string formatting in `"lat,lon"` is a parameter of `Page.LocationKey`, and `toFixed(4)` display is left out.
- Async timing is left out: late responses after the dialog closes, and React effect scheduling and batching. The sign-in handlers are the exception: their start and settle steps are separate events in `AuthDialog.AuthRun`.
- Effect re-runs are left out. Every run of the page effect on an emergency state stores a new `emergencyInfo` object (page.tsx:146), and the effect depends on that object by identity (page.tsx:162), so it runs again after every such run and never settles. `Page.ReapplyIsStable` only shows that each re-run stores an equal value; the repeated re-rendering itself is not modelled. The same dependency makes closing the dialog short-lived: while the last form state is a typed emergency, the re-run after `setEmergencyInfo(null)` rebuilds the session and the dialog mounts again (`Page.CloseIsUndoneByRerun`). Then it requests the location anew.
- `AuthDialog.BeginVerify`: the six-character check (`OtpLengthOk`) counts characters, while `otp.length` counts UTF-16 code units. So "😀😀😀" passes the source's check but not the model's.
- `AuthDialog.VerifyOtp`: the OTP length is counted in characters. JavaScript counts UTF-16 code units, so a character outside the Basic Multilingual Plane would count twice there.
- Dispatch records, a manual location retry, chat-history persistence and a dispatch-recorder service do not exist in the code, so they are not modelled.

/** The phone-number sign-in dialog: the phone-number and OTP checks, and
    the flags the send and verify handlers leave behind. The phone sign-in
    and OTP confirmation services are external; their outcomes are
    parameters. */
module AuthDialog {
  import opened Common

  /** The confirmation handle the sign-in service returns when an OTP has
      been sent; it is kept on the window between the two handlers. */
  datatype Confirmation = Confirmation(handle: nat)

  /** The dialog's state. `confirmation` is the window-wide handle, which
      outlives the dialog: a remounted dialog may find one already there. */
  datatype AuthState = AuthState(
    phoneNumber: string,
    otp: string,
    isSendingOtp: bool,
    isVerifyingOtp: bool,
    otpSent: bool,
    confirmation: Option<Confirmation>)

  /** The toasts the two handlers raise. */
  datatype Notice =
    | InvalidPhoneNumber
    | OtpSentTo(phone: string)
    | SendFailed
    | InvalidOtp
    | SignedIn
    | VerifyFailed

  predicate IsDigit(c: char) {
    '0' <= c <= '9'
  }

  /** The pattern `^\+[1-9]\d{1,14}$`: a plus sign, a non-zero leading digit,
      then one to fourteen more digits. */
  predicate ValidPhone(s: string) {
    && 3 <= |s| <= 16
    && s[0] == '+'
    && '1' <= s[1] <= '9'
    && forall i :: 2 <= i < |s| ==> IsDigit(s[i])
  }

  /** The digits of an international number under ITU-T Recommendation
      E.164: they start with a country code (which never begins with 0) and
      number at most 15; the pattern also asks for at least 2. */
  predicate NationalDigits(d: string) {
    && 2 <= |d| <= 15
    && d[0] != '0'
    && forall c :: c in d ==> IsDigit(c)
  }

  /** The phone pattern accepts exactly a plus sign followed by the digits
      of an E.164 number. */
  lemma ValidPhoneIsPlusDigits(s: string)
    ensures ValidPhone(s) <==> s != [] && s[0] == '+' && NationalDigits(s[1..])
  {
    if s != [] && s[0] == '+' && NationalDigits(s[1..]) {
      forall i | 2 <= i < |s|
        ensures IsDigit(s[i])
      {
        assert s[i] == s[1..][i - 1];
      }
      assert s[1] == s[1..][0] && s[1..][0] in s[1..];
      assert ValidPhone(s);
    }
    if ValidPhone(s) {
      forall c | c in s[1..]
        ensures IsDigit(c)
      {
        var j :| 0 <= j < |s[1..]| && s[1..][j] == c;
        assert c == s[j + 1];
      }
      assert s[1..][0] == s[1];
      assert 2 <= |s[1..]| <= 15;
      assert s[1..][0] != '0';
      assert NationalDigits(s[1..]);
    }
  }

  /** A character-by-character scan of the phone pattern, as a regular
      expression engine would perform it. The handlers use the declarative
      `ValidPhone`; this is an executable cross-check of it. */
  method CheckPhone(s: string) returns (ok: bool)
    ensures ok <==> ValidPhone(s)
  {
    if |s| < 3 || |s| > 16 || s[0] != '+' || !('1' <= s[1] <= '9') {
      return false;
    }
    var i := 2;
    while i < |s|
      invariant 2 <= i <= |s|
      invariant forall k :: 2 <= k < i ==> IsDigit(s[k])
    {
      if !IsDigit(s[i]) {
        return false;
      }
      i := i + 1;
    }
    return true;
  }

  /** The sample number of the dialog's help text is accepted; a leading
      zero, a missing plus sign, a lone digit, a sixteenth digit and spaces
      are not. */
  lemma PhoneExamples()
    ensures ValidPhone("+919876543210")
    ensures !ValidPhone("+0919876543210")
    ensures !ValidPhone("919876543210")
    ensures !ValidPhone("+9")
    ensures !ValidPhone("+1234567890123456")
    ensures !ValidPhone("+91 98765 43210")
  {
    assert !IsDigit("+91 98765 43210"[3]);
  }

  /** The OTP is sent for verification exactly when it has six characters;
      what the characters are is not checked. */
  predicate OtpLengthOk(otp: string) {
    |otp| == 6
  }

  /** The synchronous start of a handler: the state after its guard and the
      raised busy flag, whether it went on to the external call, and the
      toast of a refused input. */
  datatype Begun = Begun(state: AuthState, started: bool, refusal: Option<Notice>)

  /** Start of `handleSendOtp`: a malformed number is refused with a toast;
      otherwise `isSendingOtp` is raised and the sign-in service is called. */
  function BeginSend(s: AuthState): (r: Begun)
    ensures r.started <==> ValidPhone(s.phoneNumber)
    ensures !r.started ==> r.state == s && r.refusal == Some(InvalidPhoneNumber)
    ensures r.started ==>
      (r.state.isSendingOtp && r.refusal.None? && r.state == s.(isSendingOtp := r.state.isSendingOtp))
  {
    if !ValidPhone(s.phoneNumber) then Begun(s, false, Some(InvalidPhoneNumber))
    else Begun(s.(isSendingOtp := true), true, None)
  }

  /** End of `handleSendOtp` once the sign-in service resolved to `outcome`
      (a failure to set up the reCAPTCHA verifier is a failed outcome too);
      the `finally` clause lowers the busy flag either way. */
  function SettleSend(s: AuthState, outcome: Outcome<Confirmation>): (r: AuthState)
    ensures !r.isSendingOtp
    ensures r.otpSent <==> s.otpSent || outcome.Ok?
    ensures outcome.Ok? ==> r.confirmation == Some(outcome.value)
    ensures outcome.Fail? ==> r == s.(isSendingOtp := false)
    ensures r.phoneNumber == s.phoneNumber && r.otp == s.otp && r.isVerifyingOtp == s.isVerifyingOtp
  {
    match outcome
    case Ok(c) => s.(confirmation := Some(c), otpSent := true, isSendingOtp := false)
    case Fail => s.(isSendingOtp := false)
  }

  /** The dialog after the whole of `handleSendOtp`, whether the sign-in
      service was called, and the toast raised. */
  datatype SendStep = SendStep(state: AuthState, attempted: bool, notice: Notice)

  /** `handleSendOtp` from its start to its `finally`, with no other event
      in between. */
  function SendOtp(s: AuthState, outcome: Outcome<Confirmation>): (r: SendStep)
    // a malformed number is refused before any call and changes nothing
    ensures !ValidPhone(s.phoneNumber) ==> r == SendStep(s, false, InvalidPhoneNumber)
    ensures r.attempted <==> ValidPhone(s.phoneNumber)
    // after an attempt the busy flag is cleared, whatever happened
    ensures r.attempted ==> !r.state.isSendingOtp
    // otpSent is raised only by a successful send and never lowered
    ensures r.state.otpSent <==> s.otpSent || (r.attempted && outcome.Ok?)
    ensures r.attempted && outcome.Ok? ==>
      r.state.confirmation == Some(outcome.value) && r.notice == OtpSentTo(s.phoneNumber)
    ensures r.attempted && outcome.Fail? ==>
      r.state.confirmation == s.confirmation && r.notice == SendFailed
    // the phone number, OTP text and verify flag are untouched
    ensures r.state.phoneNumber == s.phoneNumber && r.state.otp == s.otp
    ensures r.state.isVerifyingOtp == s.isVerifyingOtp
  {
    var b := BeginSend(s);
    if !b.started then
      SendStep(s, false, b.refusal.value)
    else
      SendStep(SettleSend(b.state, outcome), true,
               if outcome.Ok? then OtpSentTo(s.phoneNumber) else SendFailed)
  }

  /** Start of `handleVerifyOtp`: an OTP of the wrong length is refused with
      a toast; otherwise `isVerifyingOtp` is raised. */
  function BeginVerify(s: AuthState): (r: Begun)
    ensures r.started <==> OtpLengthOk(s.otp)
    ensures !r.started ==> r.state == s && r.refusal == Some(InvalidOtp)
    ensures r.started ==>
      (r.state.isVerifyingOtp && r.refusal.None? && r.state == s.(isVerifyingOtp := r.state.isVerifyingOtp))
  {
    if !OtpLengthOk(s.otp) then Begun(s, false, Some(InvalidOtp))
    else Begun(s.(isVerifyingOtp := true), true, None)
  }

  /** End of `handleVerifyOtp`: whether the OTP was submitted (only with a
      confirmation handle), whether the dialog asked to be closed, the toast,
      and the state once `finally` lowered the busy flag. */
  datatype VerifyStep = VerifyStep(state: AuthState, attempted: bool, closes: bool, notice: Notice)

  function SettleVerify(s: AuthState, outcome: Outcome<()>): (r: VerifyStep)
    ensures r.state == s.(isVerifyingOtp := false)
    ensures r.attempted <==> s.confirmation.Some?
    ensures r.closes <==> r.attempted && outcome.Ok?
    ensures r.closes <==> r.notice == SignedIn
    ensures !r.closes ==> r.notice == VerifyFailed
  {
    var done := s.(isVerifyingOtp := false);
    if s.confirmation.None? then VerifyStep(done, false, false, VerifyFailed)
    else if outcome.Ok? then VerifyStep(done, true, true, SignedIn)
    else VerifyStep(done, true, false, VerifyFailed)
  }

  /** `handleVerifyOtp` from its start to its `finally`, with the
      confirmation resolving to `outcome`. */
  function VerifyOtp(s: AuthState, outcome: Outcome<()>): (r: VerifyStep)
    // an OTP of the wrong length is refused before any call and changes nothing
    ensures !OtpLengthOk(s.otp) ==> r == VerifyStep(s, false, false, InvalidOtp)
    // the OTP is confirmed only when a confirmation handle is present
    ensures r.attempted <==> OtpLengthOk(s.otp) && s.confirmation.Some?
    // the dialog closes only after a successful confirmation
    ensures r.closes <==> r.attempted && outcome.Ok?
    ensures r.closes <==> r.notice == SignedIn
    // a length-valid OTP without a handle fails and the dialog stays open
    ensures OtpLengthOk(s.otp) && s.confirmation.None? ==> r.notice == VerifyFailed && !r.closes
    // after a verification the busy flag is cleared, whatever happened
    ensures OtpLengthOk(s.otp) ==> !r.state.isVerifyingOtp
    // only the verify flag ever changes
    ensures r.state == s.(isVerifyingOtp := r.state.isVerifyingOtp)
  {
    var b := BeginVerify(s);
    if !b.started then VerifyStep(s, false, false, b.refusal.value)
    else SettleVerify(b.state, outcome)
  }

  /** What can happen while the dialog is open. A handler's start and its
      settling are separate events, so other events may come in between. */
  datatype AuthEvent =
    | EditPhone(phone: string)
    | EditOtp(code: string)
    | PressSend
    | SendSettled(sent: Outcome<Confirmation>)
    | PressVerify
    | VerifySettled(confirmed: Outcome<()>)

  /** The state after some events, with how many sends and verifications
      were started (got past their input check) and how many settled. */
  datatype Tally = Tally(state: AuthState, sendsStarted: nat, sendsSettled: nat,
                         verifiesStarted: nat, verifiesSettled: nat)

  /** One event. The Send button is rendered only before an OTP was sent and
      is disabled while sending; the Verify button is rendered only after
      and is disabled while verifying; a press on a missing or disabled
      button does nothing. A handler settles only while its flag is up, that
      is, while it is awaiting its call. */
  function AuthStep(s: AuthState, e: AuthEvent): Tally {
    match e
    case EditPhone(phone) => Tally(s.(phoneNumber := phone), 0, 0, 0, 0)
    case EditOtp(code) => Tally(s.(otp := code), 0, 0, 0, 0)
    case PressSend =>
      if s.otpSent || s.isSendingOtp then Tally(s, 0, 0, 0, 0)
      else
        var b := BeginSend(s);
        Tally(b.state, if b.started then 1 else 0, 0, 0, 0)
    case SendSettled(sent) =>
      if s.isSendingOtp then Tally(SettleSend(s, sent), 0, 1, 0, 0) else Tally(s, 0, 0, 0, 0)
    case PressVerify =>
      if !s.otpSent || s.isVerifyingOtp then Tally(s, 0, 0, 0, 0)
      else
        var b := BeginVerify(s);
        Tally(b.state, 0, 0, if b.started then 1 else 0, 0)
    case VerifySettled(confirmed) =>
      if s.isVerifyingOtp then Tally(SettleVerify(s, confirmed).state, 0, 0, 0, 1)
      else Tally(s, 0, 0, 0, 0)
  }

  function AuthRun(s: AuthState, events: seq<AuthEvent>): Tally
    decreases |events|
  {
    if events == [] then Tally(s, 0, 0, 0, 0)
    else
      var first := AuthStep(s, events[0]);
      var rest := AuthRun(first.state, events[1..]);
      Tally(rest.state,
            first.sendsStarted + rest.sendsStarted, first.sendsSettled + rest.sendsSettled,
            first.verifiesStarted + rest.verifiesStarted,
            first.verifiesSettled + rest.verifiesSettled)
  }

  /** Sending happens only before an OTP was sent, verifying only after. */
  predicate Phased(s: AuthState) {
    (s.isSendingOtp ==> !s.otpSent) && (s.isVerifyingOtp ==> s.otpSent)
  }

  function Flag(b: bool): nat {
    if b then 1 else 0
  }

  /** Each busy flag is up exactly while one call of its kind is
      outstanding: every start is matched by one settling, except the one
      still awaited while the flag is up. Sending and verifying are never in
      flight together. */
  lemma {:induction false} InFlightAccounting(s: AuthState, events: seq<AuthEvent>)
    requires Phased(s)
    ensures var t := AuthRun(s, events);
      && Flag(s.isSendingOtp) + t.sendsStarted == t.sendsSettled + Flag(t.state.isSendingOtp)
      && Flag(s.isVerifyingOtp) + t.verifiesStarted == t.verifiesSettled + Flag(t.state.isVerifyingOtp)
      && Phased(t.state)
      && !(t.state.isSendingOtp && t.state.isVerifyingOtp)
    decreases |events|
  {
    if events != [] {
      var first := AuthStep(s, events[0]);
      assert Flag(s.isSendingOtp) + first.sendsStarted == first.sendsSettled + Flag(first.state.isSendingOtp);
      assert Flag(s.isVerifyingOtp) + first.verifiesStarted == first.verifiesSettled + Flag(first.state.isVerifyingOtp);
      InFlightAccounting(first.state, events[1..]);
    }
  }

  /** Nothing resets `otpSent`: once an OTP was sent, the dialog stays on the
      OTP step whatever follows. */
  lemma {:induction false} OtpSentIsSticky(s: AuthState, events: seq<AuthEvent>)
    requires s.otpSent
    ensures AuthRun(s, events).state.otpSent
    decreases |events|
  {
    if events != [] {
      var next := AuthStep(s, events[0]).state;
      assert next.otpSent;
      OtpSentIsSticky(next, events[1..]);
    }
  }

  /** Without a successful send, otpSent stays false: failed or refused
      sends and verifications never raise it. */
  lemma {:induction false} OtpSentNeedsSuccessfulSend(s: AuthState, events: seq<AuthEvent>)
    requires !s.otpSent
    requires forall i :: 0 <= i < |events| ==> !(events[i].SendSettled? && events[i].sent.Ok?)
    ensures !AuthRun(s, events).state.otpSent
    decreases |events|
  {
    if events != [] {
      OtpSentNeedsSuccessfulSend(AuthStep(s, events[0]).state, events[1..]);
    }
  }
}

/** The sign-in dialog (`src/components/AuthModal.tsx`): a state machine over
    `flow`, `step`, `isLoading`, `error`, `otpValue` and `checkVerification`.
    Each handler or effect is one atomic method. What the awaited collaborators
    answer (`signIn`, `generateOtp`, `verifyOtp`) is a parameter, and every call
    the dialog makes to a collaborator is appended to `calls`. */
module Auth {
  import opened JsText
  import opened Users

  datatype Flow = SignIn | SignUp

  datatype Step = Credentials | OtpEntry

  /** The collaborators the dialog calls: the auth provider, the two OTP mutations,
      and `onOpenChange(false)` followed by `navigate("/dashboard")`. */
  datatype Call = SignInCall(flow: Flow) | SignOutCall | GenerateOtpCall | VerifyOtpCall(code: string) | CloseAndNavigate

  /** What a rejected promise carries: an `Error` with its message, or any other value. */
  datatype Thrown = ErrorValue(message: string) | NonErrorValue

  datatype SignInResult = SignedIn | SignInThrew(thrown: Thrown)

  const AlreadyRegistered := "This email is already registered. Please sign in instead."
  const AuthFailed := "Authentication failed"
  const SendFailed := "Failed to send verification code."
  const InvalidOtp := "Invalid or expired OTP. Please try again."
  const InUsePhrase := "already in use"
  const ExistsPhrase := "already exists"
  const OtpLength := 6

  /** The post-login gate's test: `!user.emailVerificationTime || user.otpEnabled`.
      An absent `otpEnabled` counts as off here. */
  predicate OtpRequired(u: User)
    ensures !TruthyNum(u.emailVerificationTime) ==> OtpRequired(u)
    ensures TruthyNum(u.emailVerificationTime) ==> (OtpRequired(u) <==> u.otpEnabled == Some(true))
  {
    !TruthyNum(u.emailVerificationTime) || u.otpEnabled == Some(true)
  }

  /** The close effect's test for signing out: on the OTP step with a user whose
      `emailVerificationTime` is falsy. */
  predicate SignOutOnClose(step: Step, user: Option<User>)
    ensures step != OtpEntry || user.None? ==> !SignOutOnClose(step, user)
    ensures SignOutOnClose(step, user) ==> OtpRequired(user.value)
  {
    step == OtpEntry && user.Some? && !TruthyNum(user.value.emailVerificationTime)
  }

  lemma AuthFailedIsNotDuplicate()
    ensures !Mentions(AuthFailed, InUsePhrase) && !Mentions(AuthFailed, ExistsPhrase)
  {
    forall i: nat
      ensures !OccursAt(AuthFailed, InUsePhrase, i) && !OccursAt(AuthFailed, ExistsPhrase, i)
    {
      if i + 14 <= |AuthFailed| {
        assert AuthFailed[i] != 'a';
        assert AuthFailed[i..i + 14][0] == AuthFailed[i];
      }
    }
  }

  /** The message shown after a rejected `signIn`: a duplicate-registration message
      becomes a hint to sign in, any other `Error` message is shown as it is, and a
      value that is not an `Error` gives "Authentication failed". */
  function SignInErrorText(thrown: Thrown): (r: string)
    ensures thrown.NonErrorValue? ==> r == AuthFailed
    ensures thrown.ErrorValue? ==>
      var m := thrown.message;
      r == (if Mentions(m, InUsePhrase) || Mentions(m, ExistsPhrase) then AlreadyRegistered else m)
  {
    var errorMessage := if thrown.ErrorValue? then thrown.message else AuthFailed;
    AuthFailedIsNotDuplicate();
    if Includes(errorMessage, InUsePhrase) || Includes(errorMessage, ExistsPhrase) then AlreadyRegistered
    else errorMessage
  }

  class AuthModal {
    var flow: Flow
    var step: Step
    var isLoading: bool
    var error: Option<string>
    var otpValue: string
    var checkVerification: bool
    var calls: seq<Call>

    constructor()
      ensures flow == SignIn && step == Credentials && !isLoading && error == None
      ensures otpValue == [] && !checkVerification && calls == []
    {
      flow, step, isLoading, error := SignIn, Credentials, false, None;
      otpValue, checkVerification, calls := [], false, [];
    }

    /** `handleCredentialsSubmit`: calls `signIn` with the current flow. On success,
        in either flow, it raises `checkVerification` and stays loading until the
        gate runs; on failure it shows the rewritten message and stops loading. */
    method SubmitCredentials(result: SignInResult)
      modifies this
      ensures calls == old(calls) + [SignInCall(old(flow))]
      ensures flow == old(flow) && step == old(step) && otpValue == old(otpValue)
      ensures result.SignedIn? ==> checkVerification && isLoading && error == None
      ensures result.SignInThrew? ==>
        checkVerification == old(checkVerification) && !isLoading
        && error == Some(SignInErrorText(result.thrown))
    {
      isLoading := true;
      error := None;
      calls := calls + [SignInCall(flow)];
      match result {
        case SignedIn =>
          if flow == SignUp {
            checkVerification := true;
          } else {
            checkVerification := true;
          }
        case SignInThrew(thrown) =>
          error := Some(SignInErrorText(thrown));
          isLoading := false;
      }
    }

    /** The post-login gate effect. It runs only when authenticated, with a user and
        with `checkVerification` raised, and lowers the flag first. An OTP is issued
        exactly when `OtpRequired`; otherwise the dialog closes and navigates without
        calling `generateOtp`. A failed issue stays on the credentials step. */
    method CheckUserStatus(isAuthenticated: bool, user: Option<User>, generateOk: bool)
      modifies this
      ensures flow == old(flow) && otpValue == old(otpValue)
      ensures !(isAuthenticated && user.Some? && old(checkVerification)) ==>
        step == old(step) && isLoading == old(isLoading) && error == old(error)
        && checkVerification == old(checkVerification) && calls == old(calls)
      ensures isAuthenticated && user.Some? && old(checkVerification) ==>
        !checkVerification && !isLoading
        && (if OtpRequired(user.value) then
              calls == old(calls) + [GenerateOtpCall]
              && (generateOk ==> step == OtpEntry && error == old(error))
              && (!generateOk ==> step == old(step) && error == Some(SendFailed))
            else
              calls == old(calls) + [CloseAndNavigate] && step == old(step) && error == old(error))
    {
      if isAuthenticated && user.Some? && checkVerification {
        checkVerification := false;
        var u := user.value;
        if !TruthyNum(u.emailVerificationTime) || u.otpEnabled == Some(true) {
          calls := calls + [GenerateOtpCall];
          if generateOk {
            step := OtpEntry;
            isLoading := false;
          } else {
            error := Some(SendFailed);
            isLoading := false;
          }
        } else {
          calls := calls + [CloseAndNavigate];
          isLoading := false;
        }
      }
    }

    /** The reset effect. While the dialog is open it does nothing. When closed, it
        signs out only an unverified user left on the OTP step, then resets every
        field but `checkVerification`. */
    method ResetOnClose(open: bool, user: Option<User>)
      modifies this
      ensures checkVerification == old(checkVerification)
      ensures open ==>
        flow == old(flow) && step == old(step) && isLoading == old(isLoading)
        && error == old(error) && otpValue == old(otpValue) && calls == old(calls)
      ensures !open ==>
        flow == SignIn && step == Credentials && !isLoading && error == None && otpValue == []
        && calls == old(calls) + (if SignOutOnClose(old(step), user) then [SignOutCall] else [])
    {
      if !open {
        if step == OtpEntry && user.Some? && !TruthyNum(user.value.emailVerificationTime) {
          calls := calls + [SignOutCall];
        }
        step := Credentials;
        flow := SignIn;
        error := None;
        otpValue := [];
        isLoading := false;
      }
    }

    /** The code input's `onChange`. */
    method SetOtpValue(value: string)
      modifies this
      ensures otpValue == value
      ensures flow == old(flow) && step == old(step) && isLoading == old(isLoading)
      ensures error == old(error) && checkVerification == old(checkVerification) && calls == old(calls)
    {
      otpValue := value;
    }

    /** `handleOtpSubmit`: a code that is not 6 characters long changes nothing and
        calls nothing. Otherwise `verifyOtp` is called with the code; success closes
        and navigates, failure shows the error and stays on the step; loading ends
        either way. */
    method SubmitOtp(verifyOk: bool)
      modifies this
      ensures flow == old(flow) && step == old(step) && otpValue == old(otpValue)
      ensures checkVerification == old(checkVerification)
      ensures |old(otpValue)| != OtpLength ==>
        isLoading == old(isLoading) && error == old(error) && calls == old(calls)
      ensures |old(otpValue)| == OtpLength ==>
        !isLoading
        && (verifyOk ==> error == None && calls == old(calls) + [VerifyOtpCall(otpValue), CloseAndNavigate])
        && (!verifyOk ==> error == Some(InvalidOtp) && calls == old(calls) + [VerifyOtpCall(otpValue)])
    {
      if |otpValue| != OtpLength {
        return;
      }
      isLoading := true;
      error := None;
      calls := calls + [VerifyOtpCall(otpValue)];
      if verifyOk {
        calls := calls + [CloseAndNavigate];
      } else {
        error := Some(InvalidOtp);
      }
      isLoading := false;
    }

    /** The "Sign Up"/"Sign In" link: switches the flow and clears the error. */
    method ToggleFlow()
      modifies this
      ensures flow == (if old(flow) == SignUp then SignIn else SignUp) && error == None
      ensures step == old(step) && isLoading == old(isLoading) && otpValue == old(otpValue)
      ensures checkVerification == old(checkVerification) && calls == old(calls)
    {
      flow := if flow == SignUp then SignIn else SignUp;
      error := None;
    }

    /** "Back to Sign In": returns to the credentials step and always signs out. */
    method BackToSignIn()
      modifies this
      ensures step == Credentials && calls == old(calls) + [SignOutCall]
      ensures flow == old(flow) && isLoading == old(isLoading) && error == old(error)
      ensures otpValue == old(otpValue) && checkVerification == old(checkVerification)
    {
      step := Credentials;
      calls := calls + [SignOutCall];
    }
  }

  function CountCalls(calls: seq<Call>, c: Call): nat {
    multiset(calls)[c]
  }

  /** One credential submit followed by two runs of the gate, each seeing its own
      authentication state and user record (the effect re-runs whenever either
      changes): `generateOtp` is called at most once, and exactly once when sign-in
      succeeded and the first run that saw an authenticated user found one who needs
      an OTP. */
  method GateRunsOncePerSubmit(result: SignInResult,
                               auth1: bool, user1: Option<User>, ok1: bool,
                               auth2: bool, user2: Option<User>, ok2: bool)
    returns (issued: nat)
    ensures issued <= 1
    ensures issued == 1 <==>
      result.SignedIn?
      && ((auth1 && user1.Some? && OtpRequired(user1.value))
          || (!(auth1 && user1.Some?) && auth2 && user2.Some? && OtpRequired(user2.value)))
  {
    var m := new AuthModal();
    m.SubmitCredentials(result);
    m.CheckUserStatus(auth1, user1, ok1);
    m.CheckUserStatus(auth2, user2, ok2);
    issued := CountCalls(m.calls, GenerateOtpCall);
  }

  /** The flow chosen before a successful submit does not change what the gate does:
      sign-in and sign-up reach the same step, error and calls after the `signIn` call. */
  method FlowDoesNotChangeGate(user: User, generateOk: bool)
    returns (viaSignIn: seq<Call>, viaSignUp: seq<Call>, sameStep: bool)
    ensures |viaSignIn| == |viaSignUp| == 2
    ensures viaSignIn[0] == SignInCall(SignIn) && viaSignUp[0] == SignInCall(SignUp)
    ensures viaSignIn[1..] == viaSignUp[1..]
    ensures sameStep
    ensures viaSignIn[1..] == (if OtpRequired(user) then [GenerateOtpCall] else [CloseAndNavigate])
  {
    var a := new AuthModal();
    a.SubmitCredentials(SignedIn);
    a.CheckUserStatus(true, Some(user), generateOk);
    var b := new AuthModal();
    b.ToggleFlow();
    b.SubmitCredentials(SignedIn);
    b.CheckUserStatus(true, Some(user), generateOk);
    viaSignIn, viaSignUp := a.calls, b.calls;
    sameStep := a.step == b.step && a.error == b.error && a.isLoading == b.isLoading;
  }

  /** Closing the dialog on the OTP step: the user is signed out exactly when the
      verification time is falsy, so a verified user who abandons the code stays
      signed in; every field is reset either way. */
  method CloseOnOtpStep(user: User, generateOk: bool)
    returns (signedOut: bool, resetToCredentials: bool)
    requires OtpRequired(user)
    ensures generateOk ==> (signedOut <==> !TruthyNum(user.emailVerificationTime))
    ensures !generateOk ==> !signedOut
    ensures resetToCredentials
  {
    var m := new AuthModal();
    m.SubmitCredentials(SignedIn);
    m.CheckUserStatus(true, Some(user), generateOk);
    m.ResetOnClose(false, Some(user));
    signedOut := SignOutCall in m.calls;
    resetToCredentials := m.step == Credentials && m.flow == SignIn && m.error == None
      && m.otpValue == [] && !m.isLoading;
  }

  /** A code of the wrong length: nothing happens and `verifyOtp` is not called. */
  method ShortCodeIsIgnored(code: string, verifyOk: bool) returns (verifyCalls: nat, loading: bool)
    ensures |code| != OtpLength ==> verifyCalls == 0 && !loading
    ensures |code| == OtpLength ==> verifyCalls == 1 && !loading
  {
    var m := new AuthModal();
    m.SetOtpValue(code);
    m.SubmitOtp(verifyOk);
    verifyCalls := CountCalls(m.calls, VerifyOtpCall(code));
    loading := m.isLoading;
  }
}

/**
 * The super-admin login page: the secret key is e-mailed once when the
 * page opens, the typed key is submitted trimmed, and the key can be sent
 * again; the page also has its own password-reset form.
 */
module SuperAdminLogin {
  import opened Base
  import opened Campus
  import opened AuthStore
  import opened AdminAuth

  /** A super-admin session goes straight to the dashboard; any other visitor stays. */
  function SuperLoginRedirect(session: Option<Session>): (r: Option<string>)
    ensures r.Some? <==> session.Some? && session.value.user.isSuperAdmin
    ensures r.Some? ==> r.value == "/super-admin/dashboard"
  {
    if session.Some? && session.value.user.isSuperAdmin then Some("/super-admin/dashboard") else None
  }

  const SendFailedMessage := "Failed to send secret key to admin email. Please refresh the page to try again."

  /** The key input's `maxLength`. */
  const KeyInputLength := 6

  /**
   * A key as generated fits the input and is unchanged by the trim before
   * verification, so typing the e-mailed key submits exactly that key.
   */
  lemma GeneratedKeySubmitsUnchanged(r: real)
    requires 0.0 <= r < 1.0
    ensures Trim(Take(SecretKey(r), KeyInputLength)) == SecretKey(r)
  {
    SecretKeyDigits(r);
    var k := SecretKey(r);
    assert Take(k, KeyInputLength) == k;
    assert IsDigit(k[0]) && IsDigit(k[5]);
    TrimNoOuterSpace(k);
  }

  class SuperAdminLoginPage {
    var secretKey: string
    var error: string
    var loading: bool
    var emailSent: bool
    var sendingEmail: bool
    var showForgotPassword: bool
    var forgotEmail: string
    var resetSent: bool
    var hasInitialized: bool

    constructor ()
      ensures secretKey == "" && error == "" && !loading && !emailSent && !sendingEmail
      ensures !showForgotPassword && forgotEmail == "" && !resetSent && !hasInitialized
    {
      secretKey := "";
      error := "";
      loading := false;
      emailSent := false;
      sendingEmail := false;
      showForgotPassword := false;
      forgotEmail := "";
      resetSent := false;
      hasInitialized := false;
    }

    /** The submit button is enabled only once the key was sent and while nothing is in progress. */
    predicate SubmitEnabled()
      reads this
      ensures SubmitEnabled() ==> emailSent && !loading && !sendingEmail
    {
      emailSent && !loading && !sendingEmail
    }

    /**
     * `sendSecretKeyEmail`: `sent` is what `sendSuperAdminKeyEmail`
     * answered. Success marks the key as sent; failure shows a fixed
     * message, whatever the cause, and leaves the sent flag as it was.
     */
    method SendSecretKeyEmail(sent: Outcome)
      modifies this`sendingEmail, this`error, this`emailSent
      ensures !sendingEmail
      ensures sent.Succeeded? ==> emailSent && error == ""
      ensures sent.Failed? ==> emailSent == old(emailSent) && error == SendFailedMessage
      ensures sent.Succeeded? ==> (SubmitEnabled() <==> !loading)
      ensures sent.Failed? && !old(sendingEmail) ==> SubmitEnabled() == old(SubmitEnabled())
    {
      sendingEmail := true;
      error := "";
      if sent.Succeeded? {
        emailSent := true;
      } else {
        error := SendFailedMessage;
      }
      sendingEmail := false;
    }

    /**
     * The mount effect: the first run sends the key e-mail and remembers
     * that it did; every later run sends nothing.
     */
    method Mount(sent: Outcome) returns (requested: bool)
      modifies this`hasInitialized, this`sendingEmail, this`error, this`emailSent
      ensures hasInitialized
      ensures requested <==> !old(hasInitialized)
      ensures !requested ==> error == old(error) && emailSent == old(emailSent) && sendingEmail == old(sendingEmail)
      ensures requested ==> !sendingEmail
      ensures requested && sent.Succeeded? ==> emailSent && error == ""
      ensures requested && sent.Failed? ==> emailSent == old(emailSent) && error == SendFailedMessage
      ensures !requested ==> SubmitEnabled() == old(SubmitEnabled())
      ensures requested && sent.Succeeded? ==> (SubmitEnabled() <==> !loading)
      ensures requested && sent.Failed? && !old(sendingEmail) ==> SubmitEnabled() == old(SubmitEnabled())
    {
      if hasInitialized {
        return false;
      }
      hasInitialized := true;
      SendSecretKeyEmail(sent);
      return true;
    }

    /** The key input, which takes at most six characters. */
    method ChangeKey(value: string)
      modifies this`secretKey
      ensures secretKey == Take(value, KeyInputLength)
    {
      secretKey := Take(value, KeyInputLength);
    }

    /**
     * `handleSubmit`: a blank key is refused without a call. Otherwise the
     * trimmed key goes to `loginSuperAdmin` (`reply` is its answer);
     * success navigates to the dashboard, failure shows the error or
     * "Invalid secret key".
     */
    method Submit(reply: Outcome) returns (verified: Option<string>, navigate: Option<string>)
      modifies this`error, this`loading
      ensures verified.None? <==> Trim(secretKey) == ""
      ensures verified.None? ==> navigate.None? && error == "Please enter the secret key" && loading == old(loading)
      ensures verified.Some? ==> verified.value == Trim(secretKey) && verified.value != "" && !loading
      ensures verified.Some? && reply.Succeeded? ==> navigate == Some("/super-admin/dashboard") && error == ""
      ensures verified.Some? && reply.Failed? ==> navigate.None? && error == MessageOr(reply.error, "Invalid secret key")
    {
      navigate := None;
      var key := Trim(secretKey);
      if key == "" {
        error := "Please enter the secret key";
        return None, None;
      }
      loading := true;
      error := "";
      verified := Some(key);
      if reply.Succeeded? {
        navigate := Some("/super-admin/dashboard");
      } else {
        error := MessageOr(reply.error, "Invalid secret key");
      }
      loading := false;
    }

    /** `handleResendKey`: clears the typed key and the error, then sends a new key. */
    method ResendKey(sent: Outcome)
      modifies this`secretKey, this`sendingEmail, this`error, this`emailSent
      ensures secretKey == "" && !sendingEmail
      ensures sent.Succeeded? ==> emailSent && error == ""
      ensures sent.Failed? ==> emailSent == old(emailSent) && error == SendFailedMessage
    {
      secretKey := "";
      error := "";
      SendSecretKeyEmail(sent);
    }

    /** The "Forgot Password?" button. */
    method OpenForgotPassword()
      modifies this`showForgotPassword
      ensures showForgotPassword
    {
      showForgotPassword := true;
    }

    /** The reset form's input. */
    method ChangeForgotEmail(value: string)
      modifies this`forgotEmail
      ensures forgotEmail == value
    {
      forgotEmail := value;
    }

    /**
     * `handleForgotPassword`: a blank address is refused without a call;
     * otherwise the reset is requested for the trimmed address (`reply` is
     * what the provider answered) and success shows the sent screen.
     */
    method ForgotPassword(reply: WriteReply) returns (sentTo: Option<string>)
      modifies this`error, this`loading, this`resetSent
      ensures sentTo.None? <==> Trim(forgotEmail) == ""
      ensures sentTo.None? ==>
        error == "Please enter your email address" && loading == old(loading) && resetSent == old(resetSent)
      ensures sentTo.Some? ==> sentTo.value == Trim(forgotEmail) && !loading
      ensures sentTo.Some? && reply.WriteOk? ==> resetSent && error == ""
      ensures sentTo.Some? && reply.WriteFailed? ==>
        resetSent == old(resetSent) && error == MessageOr(reply.error, "Failed to send reset email")
    {
      var email := Trim(forgotEmail);
      if email == "" {
        error := "Please enter your email address";
        return None;
      }
      loading := true;
      error := "";
      sentTo := Some(email);
      if reply.WriteOk? {
        resetSent := true;
      } else {
        error := MessageOr(reply.error, "Failed to send reset email");
      }
      loading := false;
    }

    /** `handleBackToLogin`: leaves the reset form and forgets it. */
    method BackToLogin()
      modifies this`showForgotPassword, this`forgotEmail, this`resetSent, this`error
      ensures !showForgotPassword && forgotEmail == "" && !resetSent && error == ""
    {
      showForgotPassword := false;
      forgotEmail := "";
      resetSent := false;
      error := "";
    }
  }
}

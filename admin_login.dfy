/**
 * The admin portal's login page: the form and its validation, the login
 * and registration submits, the password-reset form and the redirect of a
 * signed-in admin.
 */
module AdminLogin {
  import opened Base
  import opened Campus
  import opened AuthStore
  import opened AdminAuth

  /** With a session, a super admin goes to the super-admin dashboard and anyone else to the admin dashboard. */
  function LoginRedirect(session: Option<Session>): (r: Option<string>)
    ensures r.None? <==> session.None?
    ensures r.Some? ==> (r.value == "/super-admin/dashboard" <==> session.value.user.isSuperAdmin)
    ensures r.Some? ==> r.value in {"/super-admin/dashboard", "/admin/dashboard"}
  {
    if session.None? then None
    else if session.value.user.isSuperAdmin then Some("/super-admin/dashboard")
    else Some("/admin/dashboard")
  }

  // ---------------------------------------------------------------------
  // The form
  // ---------------------------------------------------------------------

  datatype Form = Form(email: string, password: string, confirmPassword: string, universityName: string, city: string)

  const EmptyForm := Form("", "", "", "", "")

  /** The `name` attribute of an input. */
  datatype Field = Email | Password | ConfirmPassword | UniversityName | City

  function Get(f: Form, field: Field): string
  {
    match field
    case Email => f.email
    case Password => f.password
    case ConfirmPassword => f.confirmPassword
    case UniversityName => f.universityName
    case City => f.city
  }

  /** `{ ...formData, [name]: value }`. */
  function With(f: Form, field: Field, value: string): Form
  {
    match field
    case Email => f.(email := value)
    case Password => f.(password := value)
    case ConfirmPassword => f.(confirmPassword := value)
    case UniversityName => f.(universityName := value)
    case City => f.(city := value)
  }

  /** Setting a field changes that field to the value and no other. */
  lemma WithSpec(f: Form, field: Field, value: string)
    ensures Get(With(f, field, value), field) == value
    ensures forall other :: other != field ==> Get(With(f, field, value), other) == Get(f, other)
  {
  }

  /** Why `validateForm` refused a form. */
  datatype Invalid = MissingCredentials | BadEmail | ShortPassword | PasswordMismatch | MissingUniversity

  /** The text `validateForm` shows for each refusal. */
  function Message(why: Invalid): string
  {
    match why
    case MissingCredentials => "Email and password are required"
    case BadEmail => "Please enter a valid email"
    case ShortPassword => "Password must be at least 6 characters"
    case PasswordMismatch => "Passwords do not match"
    case MissingUniversity => "University name and city are required"
  }

  /** `validateForm`: the first guard that fails, in the page's order. */
  function ValidationError(f: Form, isRegister: bool): Option<Invalid>
  {
    if f.email == "" || f.password == "" then Some(MissingCredentials)
    else if '@' !in f.email then Some(BadEmail)
    else if |f.password| < 6 then Some(ShortPassword)
    else if isRegister && f.password != f.confirmPassword then Some(PasswordMismatch)
    else if isRegister && (f.universityName == "" || f.city == "") then Some(MissingUniversity)
    else None
  }

  /** What an acceptable form is, stated without the order of the checks. */
  predicate Acceptable(f: Form, isRegister: bool)
  {
    f.email != "" && '@' in f.email && |f.password| >= 6
    && (isRegister ==> f.confirmPassword == f.password && f.universityName != "" && f.city != "")
  }

  /**
   * The form passes exactly when it is acceptable; a registration form
   * that passes also passes as a login form; and each message names a
   * condition that fails while every earlier one holds.
   */
  lemma ValidationSpec(f: Form, isRegister: bool)
    ensures ValidationError(f, isRegister).None? <==> Acceptable(f, isRegister)
    ensures ValidationError(f, true).None? ==> ValidationError(f, false).None?
    ensures ValidationError(f, isRegister) == Some(BadEmail) ==> f.email != "" && '@' !in f.email
    ensures ValidationError(f, isRegister) == Some(ShortPassword) ==>
      '@' in f.email && 0 < |f.password| < 6
    ensures ValidationError(f, isRegister) == Some(PasswordMismatch) ==>
      isRegister && ValidationError(f, false).None? && f.password != f.confirmPassword
    ensures ValidationError(f, isRegister) == Some(MissingUniversity) ==>
      isRegister && ValidationError(f, false).None? && f.password == f.confirmPassword
      && (f.universityName == "" || f.city == "")
  {
  }

  /** The auth call a submit makes. */
  datatype AuthCall = RegisterCall(email: string, password: string, universityName: string, city: string)
                    | LoginCall(email: string, password: string)

  const RegisteredFallback := "Registration successful! Please check your email to verify your account."

  class AdminLoginPage {
    var isRegister: bool
    var showForgotPassword: bool
    var forgotEmail: string
    var resetSent: bool
    var form: Form
    var error: string
    var success: string
    var loading: bool

    constructor ()
      ensures !isRegister && !showForgotPassword && forgotEmail == "" && !resetSent
      ensures form == EmptyForm && error == "" && success == "" && !loading
    {
      isRegister := false;
      showForgotPassword := false;
      forgotEmail := "";
      resetSent := false;
      form := EmptyForm;
      error := "";
      success := "";
      loading := false;
    }

    /** `handleChange`: the named field takes the value; both messages are cleared. */
    method ChangeField(field: Field, value: string)
      modifies this`form, this`error, this`success
      ensures form == With(old(form), field, value) && error == "" && success == ""
    {
      form := With(form, field, value);
      error := "";
      success := "";
    }

    /** The Login and Register tabs: choose the mode and clear both messages. */
    method SelectMode(register: bool)
      modifies this`isRegister, this`error, this`success
      ensures isRegister == register && error == "" && success == ""
    {
      isRegister := register;
      error := "";
      success := "";
    }

    /** The footer link: the other mode, both messages cleared. */
    method ToggleMode()
      modifies this`isRegister, this`error, this`success
      ensures isRegister == !old(isRegister) && error == "" && success == ""
    {
      isRegister := !isRegister;
      error := "";
      success := "";
    }

    /** `validateForm`: true when the form passes, else the first failure is shown. */
    method ValidateForm() returns (ok: bool)
      modifies this`error
      ensures ok <==> Acceptable(form, isRegister)
      ensures ok ==> error == old(error)
      ensures !ok ==> ValidationError(form, isRegister).Some? && error == Message(ValidationError(form, isRegister).value)
    {
      ValidationSpec(form, isRegister);
      var message := ValidationError(form, isRegister);
      if message.Some? {
        error := Message(message.value);
        return false;
      }
      return true;
    }

    /**
     * `handleSubmit`: an invalid form makes no call. Otherwise it registers
     * or logs in with the form's values; `register` and `login` are what
     * the provider's `registerAdmin` and `adminLogin` return (only the one
     * for the current mode is used). A registration that succeeds shows
     * its message and clears every field; a failure shows its error.
     */
    method Submit(register: RegisterResult, login: LoginReply) returns (call: Option<AuthCall>)
      modifies this`form, this`error, this`success, this`loading
      ensures call.None? <==> !Acceptable(old(form), isRegister)
      ensures call.None? ==>
        form == old(form) && success == old(success) && loading == old(loading)
        && ValidationError(form, isRegister).Some? && error == Message(ValidationError(form, isRegister).value)
      ensures call.Some? ==> !loading
      ensures call.Some? && isRegister ==>
        call.value == RegisterCall(old(form).email, old(form).password, old(form).universityName, old(form).city)
      ensures call.Some? && isRegister && register.Registered? ==>
        form == EmptyForm && error == "" && success == MessageOr(register.message, RegisteredFallback)
      ensures call.Some? && isRegister && register.RegisterFailed? ==>
        form == old(form) && success == "" && error == MessageOr(register.error, "Registration failed")
      ensures call.Some? && !isRegister ==>
        call.value == LoginCall(old(form).email, old(form).password) && form == old(form) && success == ""
        && error == if login.LoginOk? then "" else MessageOr(login.error, "Login failed")
    {
      var ok := ValidateForm();
      if !ok {
        return None;
      }
      loading := true;
      error := "";
      success := "";
      if isRegister {
        call := Some(RegisterCall(form.email, form.password, form.universityName, form.city));
        if register.Registered? {
          success := MessageOr(register.message, RegisteredFallback);
          form := EmptyForm;
        } else {
          error := MessageOr(register.error, "Registration failed");
        }
      } else {
        call := Some(LoginCall(form.email, form.password));
        if login.LoginRefused? {
          error := MessageOr(login.error, "Login failed");
        }
      }
      loading := false;
    }

    /** The "Forgot Password?" button. */
    method OpenForgotPassword()
      modifies this`showForgotPassword
      ensures showForgotPassword
    {
      showForgotPassword := true;
    }

    /**
     * `handleForgotPassword`: a blank address is refused without a call;
     * otherwise the reset is requested for the trimmed address (`reply` is
     * what the provider answered) and success shows the sent screen.
     */
    method ForgotPassword(reply: WriteReply) returns (sentTo: Option<string>)
      modifies this`error, this`loading, this`resetSent
      ensures sentTo.None? <==> Trim(forgotEmail) == ""
      ensures sentTo.None? ==>
        error == "Please enter your email address" && loading == old(loading) && resetSent == old(resetSent)
      ensures sentTo.Some? ==> sentTo.value == Trim(forgotEmail) && !loading
      ensures sentTo.Some? && reply.WriteOk? ==> resetSent && error == ""
      ensures sentTo.Some? && reply.WriteFailed? ==>
        resetSent == old(resetSent) && error == MessageOr(reply.error, "Failed to send reset email")
    {
      if Trim(forgotEmail) == "" {
        error := "Please enter your email address";
        return None;
      }
      loading := true;
      error := "";
      sentTo := Some(Trim(forgotEmail));
      if reply.WriteOk? {
        resetSent := true;
        error := "";
      } else {
        error := MessageOr(reply.error, "Failed to send reset email");
      }
      loading := false;
    }

    /** The reset form's input. */
    method ChangeForgotEmail(value: string)
      modifies this`forgotEmail
      ensures forgotEmail == value
    {
      forgotEmail := value;
    }

    /** `handleBackToLogin`: leaves the reset form and forgets it. */
    method BackToLogin()
      modifies this`showForgotPassword, this`forgotEmail, this`resetSent, this`error, this`success
      ensures !showForgotPassword && forgotEmail == "" && !resetSent && error == "" && success == ""
    {
      showForgotPassword := false;
      forgotEmail := "";
      resetSent := false;
      error := "";
      success := "";
    }
  }
}

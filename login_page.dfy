/** `LoginPage`: the form's validation, its per-field error clearing, the guarded submit and the
    post-login target. */
module LoginPage {
  import opened Wrappers
  import opened Api
  import opened Text
  import opened Validators
  import opened Router
  import opened ProtectedRoute
  import opened Session
  import opened UseApi
  import opened UseAuth

  datatype LoginForm = LoginForm(email: string, password: string)

  /** The three messages the form can show; each is a non-empty string. */
  datatype FormError = EmailRequired | EmailInvalid | PasswordRequired {
    function Message(): (m: string)
      ensures m != ""
    {
      match this
      case EmailRequired => "Email is required"
      case EmailInvalid => "Please enter a valid email address"
      case PasswordRequired => "Password is required"
    }
  }

  /** The `FormErrors` record; `None` is a key that was never set or was cleared. */
  datatype FormErrors = FormErrors(email: Option<FormError>, password: Option<FormError>)

  datatype FormField = EmailField | PasswordField

  datatype Navigation = Navigation(to: string, replace: bool)

  /** The record `validateForm` builds. */
  function ErrorsFor(form: LoginForm): FormErrors {
    FormErrors(EmailErrorFor(form.email), PasswordErrorFor(form.password))
  }

  /** The email branch of `validateForm`: a blank address is required, a non-blank one must pass the
      email pattern. */
  function EmailErrorFor(email: string): Option<FormError> {
    if !ValidateRequired(email) then Some(EmailRequired)
    else if !ValidateEmail(email) then Some(EmailInvalid)
    else None
  }

  /** The password branch of `validateForm`: only blankness is checked. */
  function PasswordErrorFor(password: string): Option<FormError> {
    if !ValidateRequired(password) then Some(PasswordRequired) else None
  }

  /** The email error is "required" exactly when the address is blank, and a password error is
      reported exactly when the password is blank; no other error kind occurs for either field. */
  lemma BlankFieldsAreRequired(form: LoginForm)
    ensures ErrorsFor(form).email == Some(EmailRequired) <==>
            forall i :: 0 <= i < |form.email| ==> IsWhitespace(form.email[i])
    ensures ErrorsFor(form).password == Some(PasswordRequired) <==>
            forall i :: 0 <= i < |form.password| ==> IsWhitespace(form.password[i])
    ensures ErrorsFor(form).password != Some(PasswordRequired) ==> ErrorsFor(form).password == None
  {
    ValidateRequiredIff(form.email);
    ValidateRequiredIff(form.password);
  }

  /** `Object.keys(newErrors).length === 0` */
  predicate NoErrors(e: FormErrors) {
    e.email.None? && e.password.None?
  }

  /** A form passes validation exactly when its email is a valid email (which makes it non-blank)
      and its password is not blank. */
  lemma FormValidIff(form: LoginForm)
    ensures NoErrors(ErrorsFor(form)) <==> ValidateEmail(form.email) && ValidateRequired(form.password)
  {
    if ValidateEmail(form.email) {
      var local, host, tld := EmailParts(form.email);
      assert !IsWhitespace(local[0]) by { assert EmailChar(local[0]); }
      assert form.email[0] == local[0];
      ValidateRequiredIff(form.email);
    }
  }

  /** `location.state?.from?.pathname || ROUTES.DASHBOARD`: an empty path also falls back. */
  function RedirectTarget(location: Location): (to: string)
    ensures to != ""
    ensures location.state.Some? && location.state.value.from.Some? && location.state.value.from.value.pathname != "" ==>
              to == location.state.value.from.value.pathname
    ensures location.state.None? || location.state.value.from.None? ==> to == DashboardRoute
    ensures location.state.Some? && location.state.value.from.Some? && location.state.value.from.value.pathname == "" ==>
              to == DashboardRoute
  {
    match location.state
    case Some(RouteState(Some(from))) => if from.pathname != "" then from.pathname else DashboardRoute
    case _ => DashboardRoute
  }

  /** The round trip through the guard: when the guard redirects away from a protected location,
      the page it redirects to sends the user back to that location's path after logging in. */
  lemma GuardRedirectReturnsHere(protected: Location, redirectTo: Option<string>, search: string, hash: string)
    requires protected.pathname != ""
    ensures var o := Guard(false, false, redirectTo, protected);
            RedirectTarget(Location(o.to, search, hash, Some(o.state))) == protected.pathname
  {
  }

  class Page {
    var form: LoginForm
    var errors: FormErrors
    const location: Location
    const auth: AuthHook

    constructor (location: Location, auth: AuthHook)
      ensures this.location == location && this.auth == auth
      ensures form == LoginForm("", "") && errors == FormErrors(None, None)
    {
      this.location := location;
      this.auth := auth;
      form := LoginForm("", "");
      errors := FormErrors(None, None);
    }

    /** `validateForm()`: the whole error record is replaced, and the result says it is empty. */
    method ValidateForm() returns (ok: bool)
      modifies this
      ensures form == old(form)
      ensures errors == ErrorsFor(form)
      ensures ok == NoErrors(errors)
    {
      var newEmail: Option<FormError> := None;
      if !ValidateRequired(form.email) {
        newEmail := Some(EmailRequired);
      } else if !ValidateEmail(form.email) {
        newEmail := Some(EmailInvalid);
      }
      assert newEmail == EmailErrorFor(form.email);
      var newPassword: Option<FormError> := None;
      if !ValidateRequired(form.password) {
        newPassword := Some(PasswordRequired);
      }
      errors := FormErrors(newEmail, newPassword);
      ok := newEmail.None? && newPassword.None?;
    }

    /** `handleChange(field)`: only that field of the form changes, and only that field's error is
        cleared (a set error is a non-empty message, hence truthy). */
    method HandleChange(field: FormField, value: string)
      modifies this
      ensures field == EmailField ==> form == old(form).(email := value)
      ensures field == PasswordField ==> form == old(form).(password := value)
      ensures field == EmailField ==> errors == old(errors).(email := None)
      ensures field == PasswordField ==> errors == old(errors).(password := None)
    {
      match field
      case EmailField =>
        form := form.(email := value);
        if errors.email.Some? && errors.email.value.Message() != "" {
          errors := errors.(email := None);
        }
      case PasswordField =>
        form := form.(password := value);
        if errors.password.Some? && errors.password.value.Message() != "" {
          errors := errors.(password := None);
        }
    }

    /** `handleSubmit`: an invalid form stops before `login` is called, so the authentication
        state and storage are untouched. A valid one is logged in with the given reply, and a
        successful login navigates, replacing the history entry, to the redirect target; a failed
        one leaves the user as it was, the login wrapper holding the error shown as `loginError`,
        and navigates nowhere. */
    method HandleSubmit(reply: Reply<LoginResponse>) returns (navigation: Option<Navigation>)
      requires auth.Valid()
      modifies this, auth, auth.loginHook, auth.service.storage
      ensures form == old(form) && errors == ErrorsFor(form)
      ensures !NoErrors(errors) ==>
                navigation.None? && unchanged(auth, auth.loginHook, auth.service.storage)
      ensures NoErrors(errors) ==>
                auth.service.storage.items == AfterLogin(old(auth.service.storage.items), reply)
      ensures NoErrors(errors) && reply.Replied? && reply.data.Some? ==>
                navigation == Some(Navigation(RedirectTarget(location), true)) &&
                auth.isAuthenticated && auth.user == Some(reply.data.value.user)
      ensures reply.Threw? || reply.data.None? ==> navigation.None?
      ensures auth.isLoading == old(auth.isLoading)
      ensures NoErrors(errors) && reply.Threw? ==>
                auth.loginHook.state == Failed(Begun(old(auth.loginHook.state)), reply.error) &&
                auth.user == old(auth.user) && auth.isAuthenticated == old(auth.isAuthenticated)
      ensures NoErrors(errors) && reply.Replied? && reply.data.None? ==>
                auth.loginHook.state == Failed(Succeeded(None), TypeErrorReading("user")) &&
                auth.user == old(auth.user) && auth.isAuthenticated == old(auth.isAuthenticated)
      ensures NoErrors(errors) && reply.Replied? && reply.data.Some? ==>
                auth.loginHook.state == Succeeded(reply.data)
    {
      var ok := ValidateForm();
      if !ok {
        return None;
      }
      auth.BeginLogin();
      var r := auth.SettleLogin(reply);
      if r.Ok? {
        navigation := Some(Navigation(RedirectTarget(location), true));
      } else {
        navigation := None;
      }
    }
  }
}

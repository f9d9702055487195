/**
 * The login page: the two field rules, the redirect target, the edit handler that also
 * drops the server's message, and the submit that keeps the e-mail but clears the password
 * when the server refuses.
 */
module LoginPage {
  import opened Wrappers
  import opened EmailFormat
  import opened FormRules

  const LOGIN_FAILED := "Invalid email or password. Please try again."
  const DEFAULT_TARGET := "/dashboard"

  datatype LoginForm = LoginForm(email: string, password: string)

  const EMPTY_FORM := LoginForm("", "")

  /** The error record; "" means no message, `backend` holds the server's refusal. */
  datatype LoginErrors = LoginErrors(email: string, password: string, backend: string)

  const NO_ERRORS := LoginErrors("", "", "")

  datatype LoginField = Email | Password

  /** How the login request ended: accepted, or refused with the server's message ("" if none). */
  datatype LoginOutcome = LoggedIn | Refused(responseMessage: string)

  /** `from`: the path the user was sent away from, else the dashboard. */
  function RedirectTarget(from: Option<string>): (r: string)
    ensures r != ""
    ensures from.Some? && from.value != "" ==> r == from.value
    ensures from.None? || from.value == "" ==> r == DEFAULT_TARGET
  {
    if from.Some? && from.value != "" then from.value else DEFAULT_TARGET
  }

  /** The errors `validateForm` records; the backend message is dropped. */
  function LoginFormErrors(form: LoginForm): (e: LoginErrors)
    ensures e.email == EmailError(form.email) && e.password == PasswordError(form.password)
    ensures e.backend == ""
  {
    LoginErrors(EmailError(form.email), PasswordError(form.password), "")
  }

  /** The form is valid iff the e-mail matches the format and the password has 6 characters. */
  lemma LoginValidity(form: LoginForm)
    ensures LoginFormErrors(form) == NO_ERRORS <==> IsEmail(form.email) && |form.password| >= 6
  {
  }

  /** The message shown when the server refuses: its own, else the default. */
  function RefusalMessage(responseMessage: string): (m: string)
    ensures m != ""
    ensures responseMessage != "" ==> m == responseMessage
    ensures responseMessage == "" ==> m == LOGIN_FAILED
  {
    if responseMessage != "" then responseMessage else LOGIN_FAILED
  }

  class Login {
    var form: LoginForm
    var errors: LoginErrors
    var loading: bool
    /** The login requests sent, in order. */
    var requests: seq<LoginForm>
    /** Where the page navigated, once logged in. */
    var navigatedTo: seq<string>

    constructor()
      ensures form == EMPTY_FORM && errors == NO_ERRORS && !loading
      ensures requests == [] && navigatedTo == []
    {
      form := EMPTY_FORM;
      errors := NO_ERRORS;
      loading := false;
      requests := [];
      navigatedTo := [];
    }

    /** `handleChange`: sets the field, clears that field's message and the server's message. */
    method HandleChange(field: LoginField, value: string)
      modifies this
      ensures field == Email ==>
        form == old(form).(email := value) && errors == old(errors).(email := "", backend := "")
      ensures field == Password ==>
        form == old(form).(password := value) && errors == old(errors).(password := "", backend := "")
      ensures loading == old(loading) && requests == old(requests) && navigatedTo == old(navigatedTo)
    {
      match field
      case Email =>
        form := form.(email := value);
        errors := errors.(email := "", backend := "");
      case Password =>
        form := form.(password := value);
        errors := errors.(password := "", backend := "");
    }

    /** `validateForm`: stores both messages and reports whether there were none. */
    method ValidateForm() returns (valid: bool)
      modifies this
      ensures errors == LoginFormErrors(form)
      ensures valid <==> IsEmail(form.email) && |form.password| >= 6
      ensures form == old(form) && loading == old(loading)
      ensures requests == old(requests) && navigatedTo == old(navigatedTo)
    {
      errors := LoginFormErrors(form);
      LoginValidity(form);
      valid := errors == NO_ERRORS;
    }

    /**
     * `handleSubmit`: a valid form is sent once; when accepted the page goes to `from`;
     * when refused only the server's message is shown and the password is cleared while
     * the e-mail stays.
     */
    method HandleSubmit(from: Option<string>, outcome: LoginOutcome)
      modifies this
      ensures LoginFormErrors(old(form)) != NO_ERRORS ==>
        errors == LoginFormErrors(old(form)) && form == old(form) && loading == old(loading)
        && requests == old(requests) && navigatedTo == old(navigatedTo)
      ensures LoginFormErrors(old(form)) == NO_ERRORS ==> requests == old(requests) + [old(form)] && !loading
      ensures LoginFormErrors(old(form)) == NO_ERRORS && outcome.LoggedIn? ==>
        errors == NO_ERRORS && form == old(form) && navigatedTo == old(navigatedTo) + [RedirectTarget(from)]
      ensures LoginFormErrors(old(form)) == NO_ERRORS && outcome.Refused? ==>
        errors == LoginErrors("", "", RefusalMessage(outcome.responseMessage))
        && form == LoginForm(old(form).email, "") && navigatedTo == old(navigatedTo)
    {
      var valid := ValidateForm();
      if !valid {
        return;
      }
      loading := true;
      errors := NO_ERRORS;
      requests := requests + [form];
      if outcome.LoggedIn? {
        navigatedTo := navigatedTo + [RedirectTarget(from)];
      } else {
        errors := LoginErrors("", "", RefusalMessage(outcome.responseMessage));
        form := form.(password := "");
      }
      loading := false;
    }
  }

  /**
   * A refused login leaves a form that fails validation until a password is typed again,
   * while the e-mail needs no retyping.
   */
  lemma RefusedFormNeedsPassword(form: LoginForm)
    ensures LoginFormErrors(form.(password := "")).password == PASSWORD_REQUIRED
    ensures LoginFormErrors(form.(password := "")).email == LoginFormErrors(form).email
  {
  }
}

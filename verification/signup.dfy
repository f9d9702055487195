/**
 * The sign-up page: four field rules, each field carrying at most one message, the edit
 * handler, and the request payload that leaves out the confirmation.
 */
module SignupPage {
  import opened EmailFormat
  import opened FormRules

  const NAME_REQUIRED := "Name is required"
  const NAME_TOO_SHORT := "Name must be at least 2 characters"
  const CONFIRM_REQUIRED := "Please confirm your password"
  const PASSWORDS_DIFFER := "Passwords do not match"

  datatype SignupForm = SignupForm(name: string, email: string, password: string, confirmPassword: string)

  const EMPTY_FORM := SignupForm("", "", "", "")

  /** The error record, one message per field; "" means no message. */
  datatype SignupErrors = SignupErrors(name: string, email: string, password: string, confirmPassword: string)

  const NO_ERRORS := SignupErrors("", "", "", "")

  datatype SignupField = Name | Email | Password | ConfirmPassword

  /** `signupData`: the form without `confirmPassword`. */
  datatype SignupPayload = SignupPayload(name: string, email: string, password: string)

  /** The name rule: required, then at least 2 characters. */
  function NameError(name: string): (r: string)
    ensures r == "" <==> |name| >= 2
    ensures name == "" ==> r == NAME_REQUIRED
    ensures |name| == 1 ==> r == NAME_TOO_SHORT
  {
    if name == "" then NAME_REQUIRED else if |name| < 2 then NAME_TOO_SHORT else ""
  }

  /** The confirmation rule: required, then equal to the password. */
  function ConfirmError(password: string, confirmPassword: string): (r: string)
    ensures r == "" <==> confirmPassword != "" && confirmPassword == password
    ensures confirmPassword == "" ==> r == CONFIRM_REQUIRED
    ensures confirmPassword != "" && confirmPassword != password ==> r == PASSWORDS_DIFFER
  {
    if confirmPassword == "" then CONFIRM_REQUIRED
    else if password != confirmPassword then PASSWORDS_DIFFER
    else ""
  }

  /** The errors `validateForm` records. */
  function SignupFormErrors(form: SignupForm): (e: SignupErrors)
    ensures e.name == NameError(form.name) && e.email == EmailError(form.email)
    ensures e.password == PasswordError(form.password)
    ensures e.confirmPassword == ConfirmError(form.password, form.confirmPassword)
  {
    SignupErrors(NameError(form.name), EmailError(form.email), PasswordError(form.password),
                 ConfirmError(form.password, form.confirmPassword))
  }

  /**
   * The form is valid iff all four fields pass: a name of 2 or more characters, a matching
   * e-mail, a password of 6 or more characters, and the same password typed again.
   */
  lemma SignupValidity(form: SignupForm)
    ensures SignupFormErrors(form) == NO_ERRORS <==>
      |form.name| >= 2 && IsEmail(form.email) && |form.password| >= 6
      && form.confirmPassword == form.password
  {
    if form.confirmPassword == form.password && |form.password| >= 6 {
      assert form.confirmPassword != "";
    }
  }

  /** The request body: everything but the confirmation. */
  function PayloadOf(form: SignupForm): (p: SignupPayload)
    ensures p.name == form.name && p.email == form.email && p.password == form.password
  {
    SignupPayload(form.name, form.email, form.password)
  }

  /** The confirmation never reaches the server: forms that differ only there send the same body. */
  lemma PayloadIgnoresConfirmation(form: SignupForm, confirm: string)
    ensures PayloadOf(form.(confirmPassword := confirm)) == PayloadOf(form)
  {
  }

  /** `{ ...prev, [name]: value }`. */
  function WithField(form: SignupForm, field: SignupField, value: string): SignupForm {
    match field
    case Name => form.(name := value)
    case Email => form.(email := value)
    case Password => form.(password := value)
    case ConfirmPassword => form.(confirmPassword := value)
  }

  /** `errors[name] = ''`. */
  function ClearError(errors: SignupErrors, field: SignupField): SignupErrors {
    match field
    case Name => errors.(name := "")
    case Email => errors.(email := "")
    case Password => errors.(password := "")
    case ConfirmPassword => errors.(confirmPassword := "")
  }

  class Signup {
    var form: SignupForm
    var errors: SignupErrors
    var loading: bool
    /** The sign-up requests sent, in order. */
    var requests: seq<SignupPayload>
    /** Where the page navigated, once signed up. */
    var navigatedTo: seq<string>

    constructor()
      ensures form == EMPTY_FORM && errors == NO_ERRORS && !loading
      ensures requests == [] && navigatedTo == []
    {
      form := EMPTY_FORM;
      errors := NO_ERRORS;
      loading := false;
      requests := [];
      navigatedTo := [];
    }

    /** `handleChange`: sets the field and clears that field's message only. */
    method HandleChange(field: SignupField, value: string)
      modifies this
      ensures form == WithField(old(form), field, value)
      ensures errors == ClearError(old(errors), field)
      ensures loading == old(loading) && requests == old(requests) && navigatedTo == old(navigatedTo)
    {
      form := WithField(form, field, value);
      errors := ClearError(errors, field);
    }

    /** `validateForm`: stores all four messages and reports whether there were none. */
    method ValidateForm() returns (valid: bool)
      modifies this
      ensures errors == SignupFormErrors(form)
      ensures valid <==> |form.name| >= 2 && IsEmail(form.email) && |form.password| >= 6
                         && form.confirmPassword == form.password
      ensures form == old(form) && loading == old(loading)
      ensures requests == old(requests) && navigatedTo == old(navigatedTo)
    {
      errors := SignupFormErrors(form);
      SignupValidity(form);
      valid := errors == NO_ERRORS;
    }

    /**
     * `handleSubmit`: a valid form sends one request without the confirmation; on success
     * (`ok`) the page goes to the dashboard.
     */
    method HandleSubmit(ok: bool)
      modifies this
      ensures errors == SignupFormErrors(old(form)) && form == old(form)
      ensures SignupFormErrors(old(form)) != NO_ERRORS ==>
        requests == old(requests) && navigatedTo == old(navigatedTo) && loading == old(loading)
      ensures SignupFormErrors(old(form)) == NO_ERRORS ==>
        requests == old(requests) + [PayloadOf(old(form))] && !loading
      ensures SignupFormErrors(old(form)) == NO_ERRORS && ok ==> navigatedTo == old(navigatedTo) + ["/dashboard"]
      ensures SignupFormErrors(old(form)) == NO_ERRORS && !ok ==> navigatedTo == old(navigatedTo)
    {
      var valid := ValidateForm();
      if !valid {
        return;
      }
      loading := true;
      requests := requests + [PayloadOf(form)];
      if ok {
        navigatedTo := navigatedTo + ["/dashboard"];
      }
      loading := false;
    }
  }
}

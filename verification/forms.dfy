/**
 * The field rules the forms share: the title rule of the task and project modals, and the
 * e-mail and password rules of the login and sign-up pages. A rule gives the message the
 * form shows, "" meaning that the field passes.
 */
module FormRules {
  import opened Strings
  import opened EmailFormat

  const TITLE_TOO_SHORT := "Title must be at least 3 characters"
  const TITLE_TOO_LONG := "Title must not exceed 100 characters"
  const EMAIL_REQUIRED := "Email is required"
  const EMAIL_INVALID := "Email format is invalid"
  const PASSWORD_REQUIRED := "Password is required"
  const PASSWORD_TOO_SHORT := "Password must be at least 6 characters"

  /**
   * The title rule: blank after trimming, then fewer than 3, then more than 100 characters,
   * the lengths being those of the untrimmed title.
   */
  function TitleError(title: string, required: string): (r: string)
    requires required != ""
    ensures r == "" <==> !IsBlank(title) && 3 <= |title| <= 100
    ensures IsBlank(title) ==> r == required
    ensures !IsBlank(title) && |title| < 3 ==> r == TITLE_TOO_SHORT
    ensures !IsBlank(title) && |title| > 100 ==> r == TITLE_TOO_LONG
  {
    if Trim(title) == [] then required
    else if |title| < 3 then TITLE_TOO_SHORT
    else if |title| > 100 then TITLE_TOO_LONG
    else ""
  }

  /**
   * The length is checked before trimming, so white space counts towards the minimum: a
   * two-letter title behind three spaces passes, and trims to two letters.
   */
  lemma PaddedShortTitlePasses(required: string)
    requires required != ""
    ensures TitleError("   ab", required) == ""
    ensures Trim("   ab") == "ab"
  {
    assert !IsBlank("   ab") by { assert !IsSpace("   ab"[3]); }
    assert LeadingSpaces("   ab") == 3;
    assert KeptLength("ab") == 2;
  }

  /** The e-mail rule of the login and sign-up forms: required, then the format. */
  function EmailError(email: string): (r: string)
    ensures r == "" <==> IsEmail(email)
    ensures email == "" ==> r == EMAIL_REQUIRED
    ensures email != "" && !IsEmail(email) ==> r == EMAIL_INVALID
  {
    if email == "" then assert !IsEmail(email) by { BlankIsNotEmail(email); } EMAIL_REQUIRED
    else if !IsEmail(email) then EMAIL_INVALID
    else ""
  }

  /** The password rule of the login and sign-up forms: required, then 6 characters. */
  function PasswordError(password: string): (r: string)
    ensures r == "" <==> |password| >= 6
    ensures password == "" ==> r == PASSWORD_REQUIRED
    ensures 0 < |password| < 6 ==> r == PASSWORD_TOO_SHORT
  {
    if password == "" then PASSWORD_REQUIRED
    else if |password| < 6 then PASSWORD_TOO_SHORT
    else ""
  }
}

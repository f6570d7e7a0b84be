/**
 * Field rules of the login and registration forms: the length checks, the
 * messages each field shows, and the rules the `handle*Change` handlers apply
 * while the user types.
 *
 * A field's error map entry is shown when the key is present and its message is
 * non-empty (`isInvalid={!!errors.field}`); the handlers write "" to clear one.
 */
module FormRules {
  import opened Wrappers
  import opened EmailRegex

  /**
   * `s.length` in JavaScript: the number of UTF-16 code units, so a character
   * outside the Basic Multilingual Plane counts twice.
   */
  function Utf16Length(s: string): (n: nat)
    ensures |s| <= n <= 2 * |s|
  {
    if s == [] then 0 else (if s[0] as int >= 0x1_0000 then 2 else 1) + Utf16Length(s[1..])
  }

  const MinNameLength := 2
  const MinPasswordLength := 6

  /**
   * `validateName`: at least two code units. Any name of two or more characters
   * passes, the empty name fails, and a one-character name passes exactly when
   * that character lies outside the Basic Multilingual Plane.
   */
  predicate ValidName(name: string)
    ensures |name| >= MinNameLength ==> ValidName(name)
    ensures name == "" ==> !ValidName(name)
    ensures |name| == 1 ==> (ValidName(name) <==> name[0] as int >= 0x1_0000)
  {
    assert |name| == 1 ==> name[1..] == [];
    Utf16Length(name) >= MinNameLength
  }

  /**
   * `validatePassword`, and the login page's inline `password.length < 6`
   * negated: six or more characters always pass, fewer than three never do.
   */
  predicate ValidPassword(password: string)
    ensures |password| >= MinPasswordLength ==> ValidPassword(password)
    ensures |password| < MinPasswordLength / 2 ==> !ValidPassword(password)
  {
    Utf16Length(password) >= MinPasswordLength
  }

  const NameRequired := "Name is required"
  const NameTooShort := "Name must be at least 2 characters"
  const EmailRequired := "Email is required"
  const EmailMalformed := "Please enter a valid email address"
  const PasswordRequired := "Password is required"
  const PasswordTooShort := "Password must be at least 6 characters"
  const ConfirmRequired := "Please confirm your password"
  const PasswordsDiffer := "Passwords do not match"

  // ---------------------------------------------------------------------------
  // Submit-time messages: "required" first, then the format rule

  function NameError(name: string): (msg: Option<string>)
    ensures msg.None? <==> ValidName(name)
    ensures name == "" ==> msg == Some(NameRequired)
    ensures name != "" && !ValidName(name) ==> msg == Some(NameTooShort)
  {
    if name == "" then Some(NameRequired)
    else if !ValidName(name) then Some(NameTooShort)
    else None
  }

  function EmailError(email: string): (msg: Option<string>)
    ensures msg.None? <==> ValidEmail(email)
    ensures email == "" ==> msg == Some(EmailRequired)
    ensures email != "" && !ValidEmail(email) ==> msg == Some(EmailMalformed)
  {
    if email == "" then Some(EmailRequired)
    else if !ValidEmail(email) then Some(EmailMalformed)
    else None
  }

  function PasswordError(password: string): (msg: Option<string>)
    ensures msg.None? <==> ValidPassword(password)
    ensures password == "" ==> msg == Some(PasswordRequired)
    ensures password != "" && !ValidPassword(password) ==> msg == Some(PasswordTooShort)
  {
    if password == "" then Some(PasswordRequired)
    else if !ValidPassword(password) then Some(PasswordTooShort)
    else None
  }

  function ConfirmError(password: string, confirm: string): (msg: Option<string>)
    ensures msg.None? <==> confirm != "" && confirm == password
    ensures confirm == "" ==> msg == Some(ConfirmRequired)
    ensures confirm != "" && confirm != password ==> msg == Some(PasswordsDiffer)
  {
    if confirm == "" then Some(ConfirmRequired)
    else if password != confirm then Some(PasswordsDiffer)
    else None
  }

  // ---------------------------------------------------------------------------
  // While-typing messages: an empty field is not flagged, "" clears the entry

  /** The message a change handler writes for a new name. */
  function LiveNameMessage(value: string): (msg: string)
    ensures msg != "" <==> value != "" && !ValidName(value)
    ensures msg != "" ==> NameError(value) == Some(msg)
  {
    if value != "" && !ValidName(value) then NameTooShort else ""
  }

  /** The message a change handler writes for a new e-mail address. */
  function LiveEmailMessage(value: string): (msg: string)
    ensures msg != "" <==> value != "" && !ValidEmail(value)
    ensures msg != "" ==> EmailError(value) == Some(msg)
  {
    if value != "" && !ValidEmail(value) then EmailMalformed else ""
  }

  /** The message a change handler writes for a new password. */
  function LivePasswordMessage(value: string): (msg: string)
    ensures msg != "" <==> value != "" && !ValidPassword(value)
    ensures msg != "" <==> 1 <= Utf16Length(value) < MinPasswordLength
    ensures msg != "" ==> PasswordError(value) == Some(msg)
  {
    if value != "" && !ValidPassword(value) then PasswordTooShort else ""
  }

  /** The confirmation message written when either the password or its confirmation changes. */
  function LiveConfirmMessage(password: string, confirm: string): (msg: string)
    ensures msg != "" <==> confirm != "" && confirm != password
    ensures msg != "" ==> ConfirmError(password, confirm) == Some(msg)
  {
    if confirm != "" && confirm != password then PasswordsDiffer else ""
  }

  /** Whether the form marks a field invalid: `!!errors[key]`. */
  predicate Shown(errors: map<string, string>, key: string)
  {
    key in errors && errors[key] != ""
  }
}

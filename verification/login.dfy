/**
 * The login form (`LoginPage`): e-mail and password fields, the error map it
 * shows, the submit-time validation and the two change handlers.
 */
module Login {
  import opened Wrappers
  import opened EmailRegex
  import opened FormRules

  const EmailKey := "email"
  const PasswordKey := "password"

  /**
   * The map `validateForm` builds: an entry for each failing field holding
   * its one message, "required" for an empty field, and no other key.
   */
  function LoginErrors(email: string, password: string): (errors: map<string, string>)
    ensures errors.Keys <= {EmailKey, PasswordKey}
    ensures EmailKey in errors <==> !ValidEmail(email)
    ensures PasswordKey in errors <==> !ValidPassword(password)
    ensures email == "" ==> errors[EmailKey] == EmailRequired
    ensures email != "" && EmailKey in errors ==> errors[EmailKey] == EmailMalformed
    ensures password == "" ==> errors[PasswordKey] == PasswordRequired
    ensures 1 <= Utf16Length(password) < MinPasswordLength ==> errors[PasswordKey] == PasswordTooShort
  {
    var withEmail := match EmailError(email) case None => map[] case Some(msg) => map[EmailKey := msg];
    match PasswordError(password)
    case None => withEmail
    case Some(msg) => withEmail[PasswordKey := msg]
  }

  /** Both fields of the login form pass their rules. */
  predicate FieldsValid(email: string, password: string)
  {
    ValidEmail(email) && ValidPassword(password)
  }

  /** Submitting succeeds exactly when the address is well formed and the password long enough. */
  lemma LoginErrorsEmptyIff(email: string, password: string)
    ensures |LoginErrors(email, password)| == 0 <==> FieldsValid(email, password)
  {
    var errors := LoginErrors(email, password);
    if |errors| == 0 {
      assert errors.Keys == {};
    } else {
      var key :| key in errors;
    }
  }

  /** The state of the login page. */
  class LoginForm {
    var email: string
    var password: string
    var errors: map<string, string>

    constructor ()
      ensures email == "" && password == "" && errors == map[]
    {
      email, password := "", "";
      errors := map[];
    }

    /** `validateForm`: replaces the error map with the failing fields' messages. */
    method ValidateForm() returns (ok: bool)
      modifies this`errors
      ensures errors == LoginErrors(email, password)
      ensures ok <==> |errors| == 0
      ensures ok <==> FieldsValid(email, password)
    {
      var newErrors: map<string, string> := map[];
      if email == "" {
        newErrors := newErrors[EmailKey := EmailRequired];
      } else if !ValidEmail(email) {
        newErrors := newErrors[EmailKey := EmailMalformed];
      }
      if password == "" {
        newErrors := newErrors[PasswordKey := PasswordRequired];
      } else if Utf16Length(password) < MinPasswordLength {
        newErrors := newErrors[PasswordKey := PasswordTooShort];
      }
      errors := newErrors;
      ok := |newErrors| == 0;
      LoginErrorsEmptyIff(email, password);
    }

    /** `handleEmailChange`: stores the address and rewrites only the e-mail entry. */
    method HandleEmailChange(value: string)
      modifies this`email, this`errors
      ensures email == value
      ensures errors == old(errors)[EmailKey := LiveEmailMessage(value)]
      ensures Shown(errors, EmailKey) <==> value != "" && !ValidEmail(value)
    {
      email := value;
      if value != "" && !ValidEmail(value) {
        errors := errors[EmailKey := EmailMalformed];
      } else {
        errors := errors[EmailKey := ""];
      }
    }

    /** `handlePasswordChange`: stores the password and rewrites only the password entry. */
    method HandlePasswordChange(value: string)
      modifies this`password, this`errors
      ensures password == value
      ensures errors == old(errors)[PasswordKey := LivePasswordMessage(value)]
      ensures Shown(errors, PasswordKey) <==> 1 <= Utf16Length(value) < MinPasswordLength
    {
      password := value;
      if value != "" && Utf16Length(value) < MinPasswordLength {
        errors := errors[PasswordKey := PasswordTooShort];
      } else {
        errors := errors[PasswordKey := ""];
      }
    }
  }
}

/**
 * The registration form (`RegisterPage`): its four text fields, the error map
 * it shows, the submit-time validation and the four change handlers.
 */
module Register {
  import opened Wrappers
  import opened EmailRegex
  import opened FormRules

  const NameKey := "name"
  const EmailKey := "email"
  const PasswordKey := "password"
  const ConfirmPasswordKey := "confirmPassword"

  /** `m` with `key` set to the message, when there is one. */
  function WithError(m: map<string, string>, key: string, msg: Option<string>): map<string, string>
  {
    match msg
    case None => m
    case Some(text) => m[key := text]
  }

  /**
   * The map `validateForm` builds: one entry per failing field, holding that
   * field's only message, and nothing else.
   */
  function RegisterErrors(name: string, email: string, password: string, confirmPassword: string): (errors: map<string, string>)
    ensures errors.Keys <= {NameKey, EmailKey, PasswordKey, ConfirmPasswordKey}
    ensures NameKey in errors <==> !ValidName(name)
    ensures EmailKey in errors <==> !ValidEmail(email)
    ensures PasswordKey in errors <==> !ValidPassword(password)
    ensures ConfirmPasswordKey in errors <==> confirmPassword == "" || confirmPassword != password
    ensures NameKey in errors ==> Some(errors[NameKey]) == NameError(name)
    ensures EmailKey in errors ==> Some(errors[EmailKey]) == EmailError(email)
    ensures PasswordKey in errors ==> Some(errors[PasswordKey]) == PasswordError(password)
    ensures ConfirmPasswordKey in errors ==> Some(errors[ConfirmPasswordKey]) == ConfirmError(password, confirmPassword)
  {
    var m0 := WithError(map[], NameKey, NameError(name));
    var m1 := WithError(m0, EmailKey, EmailError(email));
    var m2 := WithError(m1, PasswordKey, PasswordError(password));
    WithError(m2, ConfirmPasswordKey, ConfirmError(password, confirmPassword))
  }

  /** Every field of the registration form passes its rule. */
  predicate FieldsValid(name: string, email: string, password: string, confirmPassword: string)
  {
    ValidName(name) && ValidEmail(email) && ValidPassword(password) && confirmPassword != "" && confirmPassword == password
  }

  /** Submitting succeeds exactly when every field passes its rule. */
  lemma RegisterErrorsEmptyIff(name: string, email: string, password: string, confirmPassword: string)
    ensures |RegisterErrors(name, email, password, confirmPassword)| == 0 <==> FieldsValid(name, email, password, confirmPassword)
  {
    var errors := RegisterErrors(name, email, password, confirmPassword);
    if |errors| == 0 {
      assert errors.Keys == {};
    } else {
      var key :| key in errors;
    }
  }

  /** One field's `if`/`else if` in `validateForm`, as an update of the map. */
  lemma FieldStep(m: map<string, string>, key: string, value: string, valid: bool,
                  required: string, invalid: string, msg: Option<string>, result: map<string, string>)
    requires msg == (if value == "" then Some(required) else if !valid then Some(invalid) else None)
    requires result == (if value == "" then m[key := required] else if !valid then m[key := invalid] else m)
    ensures result == WithError(m, key, msg)
  {
  }

  /** The map built one field at a time, in the form's order, is `RegisterErrors`. */
  lemma RegisterErrorsInSteps(name: string, email: string, password: string, confirmPassword: string,
                              afterName: map<string, string>, afterEmail: map<string, string>,
                              afterPassword: map<string, string>, errors: map<string, string>)
    requires afterName == WithError(map[], NameKey, NameError(name))
    requires afterEmail == WithError(afterName, EmailKey, EmailError(email))
    requires afterPassword == WithError(afterEmail, PasswordKey, PasswordError(password))
    requires errors == WithError(afterPassword, ConfirmPasswordKey, ConfirmError(password, confirmPassword))
    ensures errors == RegisterErrors(name, email, password, confirmPassword)
    ensures |errors| == 0 <==> FieldsValid(name, email, password, confirmPassword)
  {
    RegisterErrorsEmptyIff(name, email, password, confirmPassword);
  }

  /** An empty field is reported as required, never with its format or mismatch message. */
  lemma RequiredTakesPrecedence(name: string, email: string, password: string, confirmPassword: string)
    ensures var errors := RegisterErrors(name, email, password, confirmPassword);
      && (name == "" ==> errors[NameKey] == NameRequired)
      && (email == "" ==> errors[EmailKey] == EmailRequired)
      && (password == "" ==> errors[PasswordKey] == PasswordRequired)
      && (confirmPassword == "" ==> errors[ConfirmPasswordKey] == ConfirmRequired)
  {
    EmptyIsNotEmail();
  }

  /** The state of the registration page. */
  class RegisterForm {
    var name: string
    var email: string
    var password: string
    var confirmPassword: string
    var errors: map<string, string>

    constructor ()
      ensures name == "" && email == "" && password == "" && confirmPassword == ""
      ensures errors == map[]
    {
      name, email, password, confirmPassword := "", "", "", "";
      errors := map[];
    }

    /** `validateForm`: replaces the error map with the failing fields' messages. */
    method ValidateForm() returns (ok: bool)
      modifies this`errors
      ensures errors == RegisterErrors(name, email, password, confirmPassword)
      ensures ok <==> |errors| == 0
      ensures ok <==> FieldsValid(name, email, password, confirmPassword)
    {
      var nm, em, pw, confirm := name, email, password, confirmPassword;
      var newErrors: map<string, string> := map[];
      if nm == "" {
        newErrors := newErrors[NameKey := NameRequired];
      } else if !ValidName(nm) {
        newErrors := newErrors[NameKey := NameTooShort];
      }
      FieldStep(map[], NameKey, nm, ValidName(nm), NameRequired, NameTooShort, NameError(nm), newErrors);
      ghost var afterName := newErrors;
      if em == "" {
        newErrors := newErrors[EmailKey := EmailRequired];
      } else if !ValidEmail(em) {
        newErrors := newErrors[EmailKey := EmailMalformed];
      }
      FieldStep(afterName, EmailKey, em, ValidEmail(em), EmailRequired, EmailMalformed, EmailError(em), newErrors);
      ghost var afterEmail := newErrors;
      if pw == "" {
        newErrors := newErrors[PasswordKey := PasswordRequired];
      } else if !ValidPassword(pw) {
        newErrors := newErrors[PasswordKey := PasswordTooShort];
      }
      FieldStep(afterEmail, PasswordKey, pw, ValidPassword(pw), PasswordRequired, PasswordTooShort, PasswordError(pw), newErrors);
      ghost var afterPassword := newErrors;
      if confirm == "" {
        newErrors := newErrors[ConfirmPasswordKey := ConfirmRequired];
      } else if pw != confirm {
        newErrors := newErrors[ConfirmPasswordKey := PasswordsDiffer];
      }
      FieldStep(afterPassword, ConfirmPasswordKey, confirm, pw == confirm, ConfirmRequired, PasswordsDiffer,
                ConfirmError(pw, confirm), newErrors);
      RegisterErrorsInSteps(nm, em, pw, confirm, afterName, afterEmail, afterPassword, newErrors);
      errors := newErrors;
      ok := |newErrors| == 0;
    }

    /** `handleNameChange`: stores the name and rewrites only the name's entry. */
    method HandleNameChange(value: string)
      modifies this`name, this`errors
      ensures name == value
      ensures errors == old(errors)[NameKey := LiveNameMessage(value)]
      ensures Shown(errors, NameKey) <==> value != "" && !ValidName(value)
    {
      name := value;
      if value != "" && !ValidName(value) {
        errors := errors[NameKey := NameTooShort];
      } else {
        errors := errors[NameKey := ""];
      }
    }

    /** `handleEmailChange`: stores the address and rewrites only the e-mail entry. */
    method HandleEmailChange(value: string)
      modifies this`email, this`errors
      ensures email == value
      ensures errors == old(errors)[EmailKey := LiveEmailMessage(value)]
      ensures Shown(errors, EmailKey) <==> value != "" && !ValidEmail(value)
    {
      email := value;
      if value != "" && !ValidEmail(value) {
        errors := errors[EmailKey := EmailMalformed];
      } else {
        errors := errors[EmailKey := ""];
      }
    }

    /**
     * `handlePasswordChange`: stores the password and rewrites both the password
     * entry and the confirmation entry against the current confirmation.
     */
    method HandlePasswordChange(value: string)
      modifies this`password, this`errors
      ensures password == value
      ensures errors == old(errors)[PasswordKey := LivePasswordMessage(value)]
                                   [ConfirmPasswordKey := LiveConfirmMessage(value, confirmPassword)]
      ensures Shown(errors, PasswordKey) <==> value != "" && !ValidPassword(value)
      ensures Shown(errors, ConfirmPasswordKey) <==> confirmPassword != "" && confirmPassword != value
    {
      password := value;
      if value != "" && !ValidPassword(value) {
        errors := errors[PasswordKey := PasswordTooShort];
      } else {
        errors := errors[PasswordKey := ""];
      }
      if confirmPassword != "" && value != confirmPassword {
        errors := errors[ConfirmPasswordKey := PasswordsDiffer];
      } else {
        errors := errors[ConfirmPasswordKey := ""];
      }
    }

    /** `handleConfirmPasswordChange`: stores the confirmation and rewrites only its entry. */
    method HandleConfirmPasswordChange(value: string)
      modifies this`confirmPassword, this`errors
      ensures confirmPassword == value
      ensures errors == old(errors)[ConfirmPasswordKey := LiveConfirmMessage(password, value)]
      ensures Shown(errors, ConfirmPasswordKey) <==> value != "" && value != password
    {
      confirmPassword := value;
      if value != "" && value != password {
        errors := errors[ConfirmPasswordKey := PasswordsDiffer];
      } else {
        errors := errors[ConfirmPasswordKey := ""];
      }
    }
  }
}

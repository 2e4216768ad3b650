/** The sign-in and registration form: its field values, the per-field
    registration errors and the sign-in error line. The context's
    `registerUser` and `loginUser` are not part of this model; their answers
    come in as parameters, and the handlers report whether they were called. */
module AuthForm {
  import opened Text
  import opened PasswordRules

  const EMAIL_REQUIRED: string := "Email is required"
  const PASSWORD_REQUIRED: string := "Password is required"
  const PASSWORDS_DIFFER: string := "Passwords do not match"
  const MISSING_CREDENTIALS: string := "Please enter both email and password"
  const INVALID_CREDENTIALS: string := "Invalid email or password"

  /** The errors a registration attempt leaves: the first failing check of
      email, password, confirmation and password rules, or none. */
  function RegisterErrors(email: string, password: string, confirm: string): map<string, string>
  {
    if email == "" then map["email" := EMAIL_REQUIRED]
    else if password == "" then map["password" := PASSWORD_REQUIRED]
    else if password != confirm then map["confirmPassword" := PASSWORDS_DIFFER]
    else PasswordErrorMap(password)
  }

  /** Registration goes ahead exactly when the email and password are given,
      the confirmation matches and every password rule holds; otherwise
      exactly one error is reported, and a missing email is reported before
      anything about the password. */
  lemma RegisterProceedsIff(email: string, password: string, confirm: string)
    ensures RegisterErrors(email, password, confirm) == map[] <==>
      email != "" && password != "" && password == confirm && Accepted(password)
    ensures |RegisterErrors(email, password, confirm)| <= 1
    ensures email == "" ==> RegisterErrors(email, password, confirm) == map["email" := EMAIL_REQUIRED]
    ensures email != "" && password != "" && password == confirm && !Accepted(password) ==>
      exists k :: 0 <= k < RULE_COUNT && RegisterErrors(email, password, confirm) == map["password" := RuleMessage(k)]
  {
    var r := RegisterErrors(email, password, confirm);
    if email == "" || password == "" || password != confirm {
      assert r.Keys == {"email"} || r.Keys == {"password"} || r.Keys == {"confirmPassword"};
      assert r != map[];
    } else if !Accepted(password) {
      var k: nat := if !HasCapital(password) then 0 else if !HasNumber(password) then 1
                    else if !HasSpecial(password) then 2 else 3;
      PasswordErrorFirstFailing(password, k);
      assert r == map["password" := RuleMessage(k)];
    }
  }

  class Form {
    var loginEmail: string
    var loginPassword: string
    var loginError: string
    var email: string
    var password: string
    var confirmPassword: string
    var showPassword: bool
    var errors: map<string, string>

    constructor ()
      ensures loginEmail == "" && loginPassword == "" && loginError == ""
      ensures email == "" && password == "" && confirmPassword == ""
      ensures !showPassword && errors == map[]
    {
      loginEmail := "";
      loginPassword := "";
      loginError := "";
      email := "";
      password := "";
      confirmPassword := "";
      showPassword := false;
      errors := map[];
    }

    /** `validatePassword`: merges the message of the first failing rule,
        if any, into the errors and reports whether all rules hold. */
    method ValidatePassword(p: string) returns (ok: bool)
      modifies this`errors
      ensures ok <==> Accepted(p)
      ensures errors == old(errors) + PasswordErrorMap(p)
    {
      var newErrors := PasswordErrorMap(p);
      errors := errors + newErrors;
      ok := |newErrors| == 0;
    }

    /** `handleRegister`: the errors are reset, then email, password,
        confirmation and the password rules are checked in turn, stopping at
        the first failure; `registerUser` is called only when all pass, and
        the form completes only when it answers true. */
    method HandleRegister(registerSucceeds: bool) returns (registerCalled: bool, completed: bool)
      modifies this`errors
      ensures errors == RegisterErrors(email, password, confirmPassword)
      ensures registerCalled <==> errors == map[]
      ensures completed <==> registerCalled && registerSucceeds
    {
      errors := map[];
      if email == "" {
        errors := errors["email" := EMAIL_REQUIRED];
        assert "email" in errors;
        return false, false;
      }
      if password == "" {
        errors := errors["password" := PASSWORD_REQUIRED];
        assert "password" in errors;
        return false, false;
      }
      if password != confirmPassword {
        errors := errors["confirmPassword" := PASSWORDS_DIFFER];
        assert "confirmPassword" in errors;
        return false, false;
      }
      var ok := ValidatePassword(password);
      assert map[] + PasswordErrorMap(password) == PasswordErrorMap(password);
      if !ok {
        return false, false;
      }
      registerCalled := true;
      completed := registerSucceeds;
    }

    /** `handleLogin`: without both an email and a password the missing-field
        message is shown and `loginUser` is not called; otherwise it is, and a
        refusal shows the invalid-credentials message. */
    method HandleLogin(loginSucceeds: bool) returns (loginCalled: bool, completed: bool)
      modifies this`loginError
      ensures loginCalled <==> loginEmail != "" && loginPassword != ""
      ensures !loginCalled ==> !completed && loginError == MISSING_CREDENTIALS
      ensures loginCalled ==> completed == loginSucceeds
      ensures loginCalled ==> loginError == if loginSucceeds then "" else INVALID_CREDENTIALS
    {
      loginError := "";
      if loginEmail == "" || loginPassword == "" {
        loginError := MISSING_CREDENTIALS;
        return false, false;
      }
      loginCalled := true;
      if loginSucceeds {
        completed := true;
      } else {
        completed := false;
        loginError := INVALID_CREDENTIALS;
      }
    }
  }
}

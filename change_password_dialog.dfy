/** The change-password dialog: three password fields, a visibility toggle,
    per-field errors, and whether the dialog is open (the parent closes it
    through `onOpenChange(false)`). No stored credential is consulted. */
module ChangePasswordDialog {
  import opened Text
  import opened PasswordRules

  const CURRENT_REQUIRED: string := "Current password is required"
  const NEW_REQUIRED: string := "New password is required"
  const PASSWORDS_DIFFER: string := "Passwords do not match"

  /** The errors a submission leaves: the first failing check of current
      password, new password, confirmation and password rules, or none. */
  function SubmitErrors(current: string, newPassword: string, confirm: string): map<string, string>
  {
    if current == "" then map["currentPassword" := CURRENT_REQUIRED]
    else if newPassword == "" then map["newPassword" := NEW_REQUIRED]
    else if newPassword != confirm then map["confirmPassword" := PASSWORDS_DIFFER]
    else PasswordErrorMap(newPassword)
  }

  /** A submission succeeds exactly when the current password is non-empty
      (its value is never compared with anything), the new password is given,
      matches its confirmation and passes every rule; a failure reports one
      error, the current password's before the new one's. */
  lemma SubmitSucceedsIff(current: string, newPassword: string, confirm: string)
    ensures SubmitErrors(current, newPassword, confirm) == map[] <==>
      current != "" && newPassword != "" && newPassword == confirm && Accepted(newPassword)
    ensures |SubmitErrors(current, newPassword, confirm)| <= 1
    ensures current == "" ==> SubmitErrors(current, newPassword, confirm) == map["currentPassword" := CURRENT_REQUIRED]
    ensures current != "" && newPassword == "" ==>
      SubmitErrors(current, newPassword, confirm) == map["newPassword" := NEW_REQUIRED]
  {
    var r := SubmitErrors(current, newPassword, confirm);
    if current == "" || newPassword == "" || newPassword != confirm {
      assert r.Keys == {"currentPassword"} || r.Keys == {"newPassword"} || r.Keys == {"confirmPassword"};
      assert r != map[];
    }
  }

  /** Any two non-empty current passwords lead to the same outcome. */
  lemma CurrentPasswordUnchecked(a: string, b: string, newPassword: string, confirm: string)
    requires a != "" && b != ""
    ensures SubmitErrors(a, newPassword, confirm) == SubmitErrors(b, newPassword, confirm)
  {
  }

  class Dialog {
    var open: bool
    var currentPassword: string
    var newPassword: string
    var confirmPassword: string
    var showPassword: bool
    var errors: map<string, string>

    constructor (open: bool)
      ensures this.open == open
      ensures currentPassword == "" && newPassword == "" && confirmPassword == ""
      ensures !showPassword && errors == map[]
    {
      this.open := open;
      currentPassword := "";
      newPassword := "";
      confirmPassword := "";
      showPassword := false;
      errors := map[];
    }

    /** `validatePassword`: merges the message of the first failing rule,
        if any, into the errors and reports whether all rules hold. */
    method ValidatePassword(p: string) returns (ok: bool)
      modifies this`errors
      ensures ok <==> Accepted(p)
      ensures errors == old(errors) + PasswordErrorMap(p)
    {
      var newErrors := PasswordErrorMap(p);
      errors := errors + newErrors;
      ok := |newErrors| == 0;
    }

    /** `handleSubmit`: the checks run in order and the first failure stops
        the submission with its error; a success closes the dialog, empties
        the three fields and hides the passwords again. */
    method HandleSubmit() returns (changed: bool)
      modifies this
      ensures errors == SubmitErrors(old(currentPassword), old(newPassword), old(confirmPassword))
      ensures changed <==> errors == map[]
      ensures changed ==> !open && currentPassword == "" && newPassword == "" && confirmPassword == ""
      ensures changed ==> !showPassword
      ensures !changed ==> open == old(open) && showPassword == old(showPassword)
      ensures !changed ==> currentPassword == old(currentPassword) && newPassword == old(newPassword)
      ensures !changed ==> confirmPassword == old(confirmPassword)
    {
      errors := map[];
      if currentPassword == "" {
        errors := errors["currentPassword" := CURRENT_REQUIRED];
        assert "currentPassword" in errors;
        return false;
      }
      if newPassword == "" {
        errors := errors["newPassword" := NEW_REQUIRED];
        assert "newPassword" in errors;
        return false;
      }
      if newPassword != confirmPassword {
        errors := errors["confirmPassword" := PASSWORDS_DIFFER];
        assert "confirmPassword" in errors;
        return false;
      }
      var ok := ValidatePassword(newPassword);
      assert map[] + PasswordErrorMap(newPassword) == PasswordErrorMap(newPassword);
      if !ok {
        return false;
      }
      open := false;
      currentPassword := "";
      newPassword := "";
      confirmPassword := "";
      showPassword := false;
      changed := true;
    }
  }
}

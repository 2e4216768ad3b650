/** The password rules shared by the registration form and the change-password
    dialog: a capital letter, a digit, one of the listed special characters and
    at least eight characters, checked in that order with one message for the
    first rule that fails. */
module PasswordRules {
  import opened Text

  /** The characters of the class `[!@#$%^&*(),.?":{}|<>]`. */
  const SPECIAL_CHARS: string := "!@#$%^&*(),.?\":{}|<>"

  const MIN_PASSWORD_LENGTH: int := 8

  /** The number of rules, in checking order: capital, number, special, length. */
  const RULE_COUNT: nat := 4

  const CAPITAL_MESSAGE: string := "Password must include at least one capital letter"
  const NUMBER_MESSAGE: string := "Password must include at least one number"
  const SPECIAL_MESSAGE: string := "Password must include at least one special character"
  const LENGTH_MESSAGE: string := "Password must be at least 8 characters long"

  /** `/[A-Z]/.test(p)` */
  predicate HasCapital(p: string) { exists i :: 0 <= i < |p| && IsUpper(p[i]) }

  /** `/[0-9]/.test(p)` */
  predicate HasNumber(p: string) { exists i :: 0 <= i < |p| && IsDigit(p[i]) }

  predicate IsSpecial(c: char) { c in SPECIAL_CHARS }

  /** `/[!@#$%^&*(),.?":{}|<>]/.test(p)` */
  predicate HasSpecial(p: string) { exists i :: 0 <= i < |p| && IsSpecial(p[i]) }

  /** `password.length >= 8`, the length counted in UTF-16 code units. */
  predicate LongEnough(p: string) { Utf16Length(p) >= MIN_PASSWORD_LENGTH }

  /** A password every rule accepts. */
  predicate Accepted(p: string)
  {
    HasCapital(p) && HasNumber(p) && HasSpecial(p) && LongEnough(p)
  }

  /** Rule `k` of the checking order. */
  predicate Rule(k: nat, p: string)
    requires k < RULE_COUNT
  {
    match k
    case 0 => HasCapital(p)
    case 1 => HasNumber(p)
    case 2 => HasSpecial(p)
    case _ => LongEnough(p)
  }

  /** The message shown when rule `k` is the first to fail. */
  function RuleMessage(k: nat): string
    requires k < RULE_COUNT
  {
    match k
    case 0 => CAPITAL_MESSAGE
    case 1 => NUMBER_MESSAGE
    case 2 => SPECIAL_MESSAGE
    case _ => LENGTH_MESSAGE
  }

  /** The `else if` chain of `validatePassword`: the message it sets, if any. */
  function PasswordError(p: string): Option<string>
  {
    if !HasCapital(p) then Some(CAPITAL_MESSAGE)
    else if !HasNumber(p) then Some(NUMBER_MESSAGE)
    else if !HasSpecial(p) then Some(SPECIAL_MESSAGE)
    else if !LongEnough(p) then Some(LENGTH_MESSAGE)
    else None
  }

  /** The four messages are pairwise different, so a message names its rule. */
  lemma RuleMessagesDistinct(j: nat, k: nat)
    requires j < RULE_COUNT && k < RULE_COUNT && j != k
    ensures RuleMessage(j) != RuleMessage(k)
  {
    assert CAPITAL_MESSAGE[35] == 'c' && NUMBER_MESSAGE[35] == 'n';
    assert SPECIAL_MESSAGE[35] == 's' && LENGTH_MESSAGE[35] == 'e';
  }

  /** No message exactly when every rule holds; otherwise the message is the
      one of the first failing rule in the order capital, number, special, length. */
  lemma PasswordErrorFirstFailing(p: string, k: nat)
    requires k < RULE_COUNT
    ensures PasswordError(p).None? <==> Accepted(p)
    ensures PasswordError(p) == Some(RuleMessage(k)) <==>
      (forall j :: 0 <= j < k ==> Rule(j, p)) && !Rule(k, p)
  {
    var e := PasswordError(p);
    if e.Some? {
      var first: nat := if !HasCapital(p) then 0 else if !HasNumber(p) then 1 else if !HasSpecial(p) then 2 else 3;
      assert e == Some(RuleMessage(first)) && !Rule(first, p);
      assert forall j :: 0 <= j < first ==> Rule(j, p);
      if first != k {
        RuleMessagesDistinct(first, k);
      }
    }
  }

  /** The length rule counts UTF-16 code units: three emoji make a password
      of six characters long enough. */
  lemma AstralCharactersCountTwice()
    ensures var p := "A1!\U{1F600}\U{1F600}\U{1F600}";
      |p| == 6 && Utf16Length(p) == 9 && Accepted(p)
  {
    var p := "A1!\U{1F600}\U{1F600}\U{1F600}";
    assert IsUpper(p[0]) && IsDigit(p[1]) && IsSpecial(p[2]);
    assert Utf16Length(p[..3]) == 3 by {
      assert p[..3][..2] == p[..2] && p[..2][..1] == p[..1] && p[..1][..0] == [];
    }
    assert p[..4][..3] == p[..3] && p[..5][..4] == p[..4] && p[..6][..5] == p[..5] && p[..6] == p;
  }

  /** The error map `validatePassword` merges into the form's errors. */
  function PasswordErrorMap(p: string): (r: map<string, string>)
    ensures r == map[] <==> Accepted(p)
    ensures r != map[] ==> r.Keys == {"password"} && PasswordError(p) == Some(r["password"])
  {
    match PasswordError(p)
    case None => map[]
    case Some(m) => var r := map["password" := m]; assert "password" in r; r
  }
}

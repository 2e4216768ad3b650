/** The profile form: six text fields, a per-field error map that every check
    fills in without stopping at the first failure, and the submission that
    writes the profile into the account's stats. */
module ProfileForm {
  import opened Text
  import opened DataService
  import CryptoContext

  const FIRST_NAME_REQUIRED: string := "First name is required"
  const LAST_NAME_REQUIRED: string := "Last name is required"
  const USERNAME_REQUIRED: string := "Username is required"
  const USERNAME_TOO_SHORT: string := "Username must be at least 4 characters"
  const COUNTRY_REQUIRED: string := "Country is required"
  const INVALID_PHONE: string := "Invalid phone number format"
  const INVALID_REFERRAL: string := "Invalid referral code format"

  const MIN_USERNAME_LENGTH: int := 4
  const MIN_REFERRAL_LENGTH: int := 6
  const MAX_REFERRAL_LENGTH: int := 10

  datatype Fields = Fields(firstName: string, lastName: string, username: string,
                           country: string, phoneNumber: string, referralCode: string)

  /** A character of the class `[0-9\s\-()]`. */
  predicate PhoneChar(c: char)
  {
    IsDigit(c) || IsSpace(c) || c == '-' || c == '(' || c == ')'
  }

  /** `[0-9\s\-()]+` matching a whole string. */
  predicate PhoneRun(s: string)
  {
    s != [] && forall i :: 0 <= i < |s| ==> PhoneChar(s[i])
  }

  /** `/^\+?[0-9\s\-()]+$/.test(s)`: with the plus taken, or with it skipped. */
  predicate PhoneMatches(s: string)
  {
    (s != [] && s[0] == '+' && PhoneRun(s[1..])) || PhoneRun(s)
  }

  /** A phone number is accepted exactly when it is neither empty nor a lone
      plus, and every character is a digit, white space, a hyphen or a
      parenthesis, except that the first may be a plus. */
  lemma PhoneMatchesIff(s: string)
    ensures PhoneMatches(s) <==>
      s != [] && s != "+" && forall i :: 0 <= i < |s| ==> PhoneChar(s[i]) || (i == 0 && s[i] == '+')
  {
    if s != [] && s[0] == '+' {
      assert !PhoneChar(s[0]);
      if s != "+" {
        assert |s| >= 2;
        if forall i :: 0 <= i < |s| ==> PhoneChar(s[i]) || (i == 0 && s[i] == '+') {
          forall i | 0 <= i < |s[1..]|
            ensures PhoneChar(s[1..][i])
          {
            assert s[1..][i] == s[i + 1];
          }
        }
      }
      if PhoneRun(s[1..]) {
        forall i | 0 <= i < |s|
          ensures PhoneChar(s[i]) || (i == 0 && s[i] == '+')
        {
          if i > 0 {
            assert s[i] == s[1..][i - 1];
          }
        }
      }
    }
  }

  /** `/^[A-Z0-9]{6,10}$/.test(s)` */
  predicate ReferralMatches(s: string)
  {
    MIN_REFERRAL_LENGTH <= |s| <= MAX_REFERRAL_LENGTH
    && forall i :: 0 <= i < |s| ==> IsUpper(s[i]) || IsDigit(s[i])
  }

  /** Because the input is uppercased as it is typed, a code of 6 to 10 ASCII
      letters and digits in any case is accepted; under ASCII uppercasing, one
      holding any other character, or of another length, is refused. */
  lemma UppercasedReferral(s: string)
    ensures (MIN_REFERRAL_LENGTH <= |s| <= MAX_REFERRAL_LENGTH
             && forall i :: 0 <= i < |s| ==> IsUpper(s[i]) || IsLower(s[i]) || IsDigit(s[i]))
            <==> ReferralMatches(ToUpperAscii(s))
  {
    var u := ToUpperAscii(s);
    if ReferralMatches(u) {
      forall i | 0 <= i < |s|
        ensures IsUpper(s[i]) || IsLower(s[i]) || IsDigit(s[i])
      {
        assert IsUpper(u[i]) || IsDigit(u[i]);
      }
    }
  }

  /** A name field is rejected when nothing but white space is left. */
  predicate Blank(s: string)
  {
    forall i :: 0 <= i < |s| ==> IsSpace(s[i])
  }

  /** `!s.trim()`: trimming leaves the empty string exactly for blank text. */
  lemma BlankIffTrimEmpty(s: string)
    ensures Blank(s) <==> Trim(s) == ""
  {
  }

  /** The form's error map. Its keys are the six field names, so it is kept
      as one optional message per field; a missing key is `None`. */
  datatype Errors = Errors(firstName: Option<string>, lastName: Option<string>,
                           username: Option<string>, country: Option<string>,
                           phoneNumber: Option<string>, referralCode: Option<string>)

  const NO_ERRORS: Errors := Errors(None, None, None, None, None, None)

  function CountOf(m: Option<string>): nat
  {
    if m.Some? then 1 else 0
  }

  /** `Object.keys(errors).length` */
  function ErrorCount(e: Errors): (n: nat)
    ensures n <= 6
    ensures n == 0 <==> e == NO_ERRORS
  {
    CountOf(e.firstName) + CountOf(e.lastName) + CountOf(e.username)
    + CountOf(e.country) + CountOf(e.phoneNumber) + CountOf(e.referralCode)
  }

  /** The first-name and last-name check. */
  function NameError(name: string, message: string): Option<string>
  {
    if Blank(name) then Some(message) else None
  }

  /** The username check: a blank name is missing; otherwise the untrimmed
      text must be at least 4 UTF-16 code units long. */
  function UsernameError(username: string): Option<string>
  {
    if Blank(username) then Some(USERNAME_REQUIRED)
    else if Utf16Length(username) < MIN_USERNAME_LENGTH then Some(USERNAME_TOO_SHORT)
    else None
  }

  function CountryError(country: string): Option<string>
  {
    if country == "" then Some(COUNTRY_REQUIRED) else None
  }

  /** An empty phone number is accepted; any other must match the pattern. */
  function PhoneError(phone: string): Option<string>
  {
    if phone != "" && !PhoneMatches(phone) then Some(INVALID_PHONE) else None
  }

  /** An empty referral code is accepted; any other must match the pattern. */
  function ReferralError(code: string): Option<string>
  {
    if code != "" && !ReferralMatches(code) then Some(INVALID_REFERRAL) else None
  }

  /** Every check's outcome, each one independent of the other fields. */
  function FormErrors(f: Fields): Errors
  {
    Errors(NameError(f.firstName, FIRST_NAME_REQUIRED), NameError(f.lastName, LAST_NAME_REQUIRED),
           UsernameError(f.username), CountryError(f.country),
           PhoneError(f.phoneNumber), ReferralError(f.referralCode))
  }

  /** The form is valid exactly when both names and the username are not
      blank, the username is at least 4 code units long, a country is chosen,
      and the phone number and referral code are each empty or well formed;
      an error names the field it is about. */
  lemma FormValidIff(f: Fields)
    ensures ErrorCount(FormErrors(f)) == 0 <==>
      !Blank(f.firstName) && !Blank(f.lastName)
      && !Blank(f.username) && Utf16Length(f.username) >= MIN_USERNAME_LENGTH
      && f.country != ""
      && (f.phoneNumber == "" || PhoneMatches(f.phoneNumber))
      && (f.referralCode == "" || ReferralMatches(f.referralCode))
  {
  }

  /** The checks do not stop at the first failure: an untouched form reports
      the two names, the username and the country at once. */
  lemma EmptyFormErrors()
    ensures FormErrors(Fields("", "", "", "", "", "")) ==
      Errors(Some(FIRST_NAME_REQUIRED), Some(LAST_NAME_REQUIRED), Some(USERNAME_REQUIRED),
             Some(COUNTRY_REQUIRED), None, None)
    ensures ErrorCount(FormErrors(Fields("", "", "", "", "", ""))) == 4
  {
  }

  /** A username of only white space is reported missing, not short; one
      padded with spaces to 4 characters passes the length check although it
      holds fewer visible characters. */
  lemma UsernameLengthIsUntrimmed()
    ensures UsernameError("   ") == Some(USERNAME_REQUIRED)
    ensures UsernameError(" ab ") == None
  {
    assert !IsSpace(" ab "[1]);
  }

  /** Two emoji are four code units, so they make a username long enough. */
  lemma UsernameCountsCodeUnits()
    ensures UsernameError("\U{1F600}\U{1F600}") == None
  {
    var u := "\U{1F600}\U{1F600}";
    assert !IsSpace(u[0]);
    assert u[..1][..0] == [] && u[..2] == u;
  }

  /** `x || undefined` on a string: the empty string is stored as missing. */
  function OrUndefined(s: string): Option<string>
  {
    if s == "" then None else Some(s)
  }

  /** The stats patch a valid submission writes. */
  function ProfilePatch(f: Fields): StatsPatch
  {
    EMPTY_STATS_PATCH.(
      firstName := Some(Some(f.firstName)), lastName := Some(Some(f.lastName)),
      username := Some(Some(f.username)), countryCode := Some(Some(f.country)),
      phoneNumber := Some(OrUndefined(f.phoneNumber)), referralCode := Some(OrUndefined(f.referralCode)),
      profileCompleted := Some(Some(true)))
  }

  /** Merging the patch stores the names, username and country as typed,
      an empty phone number or referral code as missing, and marks the
      profile complete; the mining figures are left as they were. */
  lemma ProfilePatchStores(s: UserStats, f: Fields)
    ensures var t := MergeStats(s, ProfilePatch(f));
      t.firstName == Some(f.firstName) && t.lastName == Some(f.lastName)
      && t.username == Some(f.username) && t.countryCode == Some(f.country)
      && (t.phoneNumber.None? <==> f.phoneNumber == "")
      && (t.phoneNumber.Some? ==> t.phoneNumber.value == f.phoneNumber)
      && (t.referralCode.None? <==> f.referralCode == "")
      && (t.referralCode.Some? ==> t.referralCode.value == f.referralCode)
      && t.profileCompleted == Some(true)
      && t.(firstName := s.firstName, lastName := s.lastName, username := s.username,
            countryCode := s.countryCode, phoneNumber := s.phoneNumber,
            referralCode := s.referralCode, profileCompleted := s.profileCompleted) == s
  {
  }

  class Form {
    var firstName: string
    var lastName: string
    var username: string
    var country: string
    var phoneNumber: string
    var referralCode: string
    var errors: Errors

    constructor ()
      ensures Current() == Fields("", "", "", "", "", "") && errors == NO_ERRORS
    {
      firstName := "";
      lastName := "";
      username := "";
      country := "";
      phoneNumber := "";
      referralCode := "";
      errors := NO_ERRORS;
    }

    function Current(): Fields
      reads this
    {
      Fields(firstName, lastName, username, country, phoneNumber, referralCode)
    }

    /** The referral input's change handler: the typed text is stored uppercased. */
    method SetReferralCode(input: string)
      modifies this`referralCode
      ensures referralCode == ToUpperAscii(input)
    {
      referralCode := ToUpperAscii(input);
    }

    /** `validateForm`: every check runs, each failure adds its field's
        message, and the collected map replaces the errors. */
    method ValidateForm() returns (valid: bool)
      modifies this`errors
      ensures errors == FormErrors(Current())
      ensures valid <==> ErrorCount(errors) == 0
    {
      var f := Current();
      var newErrors := NO_ERRORS;
      if Blank(f.firstName) {
        newErrors := newErrors.(firstName := Some(FIRST_NAME_REQUIRED));
      }
      if Blank(f.lastName) {
        newErrors := newErrors.(lastName := Some(LAST_NAME_REQUIRED));
      }
      if Blank(f.username) {
        newErrors := newErrors.(username := Some(USERNAME_REQUIRED));
      } else if Utf16Length(f.username) < MIN_USERNAME_LENGTH {
        newErrors := newErrors.(username := Some(USERNAME_TOO_SHORT));
      }
      if f.country == "" {
        newErrors := newErrors.(country := Some(COUNTRY_REQUIRED));
      }
      if f.phoneNumber != "" && !PhoneMatches(f.phoneNumber) {
        newErrors := newErrors.(phoneNumber := Some(INVALID_PHONE));
      }
      if f.referralCode != "" && !ReferralMatches(f.referralCode) {
        newErrors := newErrors.(referralCode := Some(INVALID_REFERRAL));
      }
      errors := newErrors;
      valid := ErrorCount(newErrors) == 0;
    }

    /** `handleSubmit`: nothing is written unless the form is valid; a valid
        form's profile goes into the account's stats through `updateUserStats`. */
    method HandleSubmit(account: CryptoContext.Account, now: int) returns (submitted: bool)
      requires account.Valid()
      modifies this`errors, account, account.store
      ensures account.Valid() && account.signedIn == old(account.signedIn)
      ensures errors == FormErrors(Current())
      ensures submitted <==> ErrorCount(errors) == 0
      ensures !submitted ==> account.userData == old(account.userData)
      ensures !submitted ==> account.store.slot == old(account.store.slot)
      ensures submitted ==> account.userData == old(account.userData).(
        userStats := MergeStats(old(account.userData).userStats, ProfilePatch(Current())),
        lastUpdated := now)
    {
      var valid := ValidateForm();
      if !valid {
        return false;
      }
      account.UpdateUserStats(ProfilePatch(Current()), now);
      submitted := true;
    }
  }
}

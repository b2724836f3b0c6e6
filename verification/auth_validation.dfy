/** The account forms' validation schemas: login, password recovery,
    personal signup and business signup.

    A schema is modelled as the list of issues it reports, in the order the
    schema library produces them: fields in declaration order, each field's
    checks in chain order, then the object-level refinement. Field checks
    that fail do not stop the refinement from running, so a password
    mismatch is reported alongside any other issue. A form is accepted
    exactly when the list is empty. The schemas here take fully typed
    values; a missing key is handled in `SignupForms`. */
module AuthValidation {
  import opened Chars
  import opened Schema

  datatype Field =
    | Email | Password | ConfirmPassword | FirstName | LastName | Phone
    | AcceptTerms | CompanyName | LegalRepName | Rfc

  type Issue = Schema.Issue<Field>

  predicate HasUpper(s: string) { exists i :: 0 <= i < |s| && IsUpper(s[i]) }
  predicate HasLower(s: string) { exists i :: 0 <= i < |s| && IsLower(s[i]) }
  predicate HasDigit(s: string) { exists i :: 0 <= i < |s| && IsDigit(s[i]) }
  predicate HasSymbol(s: string) { exists i :: 0 <= i < |s| && !IsAlnum(s[i]) }

  /** The password strength rules (auth-validation.ts, lines 3-9). */
  function PasswordIssues(f: Field, s: string): (r: seq<Issue>)
    ensures r == [] <==>
      |s| >= 8 && HasUpper(s) && HasLower(s) && HasDigit(s) && HasSymbol(s)
    ensures forall k :: 0 <= k < |r| ==> r[k].field == f
    ensures Issue(f, MinLength(8)) in r <==> |s| < 8
    ensures Issue(f, Mismatch(NeedsUpper)) in r <==> !HasUpper(s)
    ensures Issue(f, Mismatch(NeedsLower)) in r <==> !HasLower(s)
    ensures Issue(f, Mismatch(NeedsDigit)) in r <==> !HasDigit(s)
    ensures Issue(f, Mismatch(NeedsSymbol)) in r <==> !HasSymbol(s)
  {
    MinIssue(f, s, 8)
    + PatternIssue(f, HasUpper(s), NeedsUpper)
    + PatternIssue(f, HasLower(s), NeedsLower)
    + PatternIssue(f, HasDigit(s), NeedsDigit)
    + PatternIssue(f, HasSymbol(s), NeedsSymbol)
  }

  /** One pass over the password recording which classes occur, as a
      regular-expression engine scanning for each class would. */
  method ScanPassword(s: string) returns (upper: bool, lower: bool, digit: bool, symbol: bool)
    ensures upper <==> HasUpper(s)
    ensures lower <==> HasLower(s)
    ensures digit <==> HasDigit(s)
    ensures symbol <==> HasSymbol(s)
  {
    upper, lower, digit, symbol := false, false, false, false;
    var i := 0;
    while i < |s|
      invariant 0 <= i <= |s|
      invariant upper <==> exists j :: 0 <= j < i && IsUpper(s[j])
      invariant lower <==> exists j :: 0 <= j < i && IsLower(s[j])
      invariant digit <==> exists j :: 0 <= j < i && IsDigit(s[j])
      invariant symbol <==> exists j :: 0 <= j < i && !IsAlnum(s[j])
    {
      var c := s[i];
      if IsUpper(c) { upper := true; }
      if IsLower(c) { lower := true; }
      if IsDigit(c) { digit := true; }
      if !IsAlnum(c) { symbol := true; }
      i := i + 1;
    }
  }

  /** A strong password is accepted; the scan and the schema agree. */
  method AcceptsPassword(s: string) returns (ok: bool)
    ensures ok <==> PasswordIssues(Password, s) == []
  {
    var upper, lower, digit, symbol := ScanPassword(s);
    ok := |s| >= 8 && upper && lower && digit && symbol;
  }

  /** The signup phone: at least ten characters, digits only. */
  function PhoneIssues(s: string): (r: seq<Issue>)
    ensures r == [] <==> |s| >= 10 && AllDigits(s)
    ensures forall k :: 0 <= k < |r| ==> r[k].field == Phone
  {
    MinIssue(Phone, s, 10) + PatternIssue(Phone, DigitString(s), OnlyDigits)
  }

  // ---------------------------------------------------------------------
  // RFC (Mexican taxpayer identifier)

  /** `[A-Z&Ñ]`: the letters allowed in an RFC's name part. */
  predicate IsRfcLetter(c: char) { IsUpper(c) || c == '&' || c == 'Ñ' }

  /** `[A-Z\d]`: the characters of an RFC's check part. */
  predicate IsRfcCheckChar(c: char) { IsUpper(c) || IsDigit(c) }

  /** The RFC pattern with a name part of exactly `k` letters: `k` name
      letters, six date digits, three check characters, nothing else. */
  predicate RfcWithNameLength(s: string, k: nat) {
    && |s| == k + 9
    && (forall i :: 0 <= i < k ==> IsRfcLetter(s[i]))
    && (forall i :: k <= i < k + 6 ==> IsDigit(s[i]))
    && (forall i :: k + 6 <= i < |s| ==> IsRfcCheckChar(s[i]))
  }

  /** `/^[A-Z&Ñ]{3,4}\d{6}[A-Z\d]{3}$/.test(s)`. */
  predicate RfcMatches(s: string) {
    RfcWithNameLength(s, 3) || RfcWithNameLength(s, 4)
  }

  /** The pattern alone pins the length to 12 or 13, and the length decides
      which name length matched. */
  lemma RfcPatternFixesLength(s: string)
    requires RfcMatches(s)
    ensures |s| == 12 || |s| == 13
    ensures |s| == 12 <==> RfcWithNameLength(s, 3)
  {
  }

  /** The RFC field's checks (auth-validation.ts, lines 39-42). */
  function RfcIssues(s: string): (r: seq<Issue>)
    ensures r == [] <==> RfcMatches(s)
    ensures forall k :: 0 <= k < |r| ==> r[k].field == Rfc
  {
    MinIssue(Rfc, s, 12) + MaxIssue(Rfc, s, 13) + PatternIssue(Rfc, RfcMatches(s), RfcFormat)
  }

  /** The length checks never fire on their own: every string they reject is
      also rejected by the pattern. */
  lemma RfcLengthChecksRedundant(s: string)
    requires |s| < 12 || |s| > 13
    ensures Issue(Rfc, Mismatch(RfcFormat)) in RfcIssues(s)
  {
    if RfcMatches(s) {
      RfcPatternFixesLength(s);
    }
  }

  /** An RFC scanner: only lengths 12 and 13 can match, the length fixes
      the name part at `|s| - 9` letters, and each position is then checked
      against its character class. */
  method MatchRfc(s: string) returns (ok: bool)
    ensures ok <==> RfcMatches(s)
  {
    if |s| != 12 && |s| != 13 {
      return false;
    }
    var k := |s| - 9;
    ok := true;
    var i := 0;
    while i < |s|
      invariant 0 <= i <= |s|
      invariant ok <==>
        (forall j :: 0 <= j < i && j < k ==> IsRfcLetter(s[j]))
        && (forall j :: k <= j < i && j < k + 6 ==> IsDigit(s[j]))
        && (forall j :: k + 6 <= j < i ==> IsRfcCheckChar(s[j]))
    {
      if i < k {
        ok := ok && IsRfcLetter(s[i]);
      } else if i < k + 6 {
        ok := ok && IsDigit(s[i]);
      } else {
        ok := ok && IsRfcCheckChar(s[i]);
      }
      i := i + 1;
    }
  }

  // ---------------------------------------------------------------------
  // Form schemas

  datatype LoginForm = LoginForm(email: string, password: string)

  /** `loginSchema`: a valid email and a non-empty password; the strength
      rules do not apply at login. */
  function LoginIssues(form: LoginForm, isEmail: string -> bool): (r: seq<Issue>)
    ensures r == [] <==> isEmail(form.email) && form.password != ""
    ensures forall k :: 0 <= k < |r| ==> r[k].field in {Email, Password}
    ensures Issue(Email, InvalidEmail) in r <==> !isEmail(form.email)
    ensures Issue(Password, MinLength(1)) in r <==> form.password == ""
  {
    EmailIssue(Email, form.email, isEmail) + MinIssue(Password, form.password, 1)
  }

  /** A password that fails the strength rules is still accepted at login. */
  lemma LoginIgnoresStrength(email: string, isEmail: string -> bool)
    requires isEmail(email)
    ensures LoginIssues(LoginForm(email, "a"), isEmail) == []
    ensures PasswordIssues(Password, "a") != []
  {
  }

  /** `forgotPasswordSchema`: a valid email and nothing else. */
  function ForgotPasswordIssues(email: string, isEmail: string -> bool): (r: seq<Issue>)
    ensures r == [] <==> isEmail(email)
    ensures forall k :: 0 <= k < |r| ==> r[k] == Issue(Email, InvalidEmail)
  {
    EmailIssue(Email, email, isEmail)
  }

  datatype PersonalSignup = PersonalSignup(
    firstName: string,
    lastName: string,
    phone: string,
    email: string,
    password: string,
    confirmPassword: string,
    acceptTerms: bool)

  datatype BusinessSignup = BusinessSignup(
    companyName: string,
    legalRepName: string,
    email: string,
    rfc: string,
    phone: string,
    password: string,
    confirmPassword: string,
    acceptTerms: bool)

  function TermsIssue(accepted: bool): seq<Issue> {
    if accepted then [] else [Issue(AcceptTerms, TermsNotAccepted)]
  }

  function ConfirmIssue(password: string, confirm: string): seq<Issue> {
    if password == confirm then [] else [Issue(ConfirmPassword, PasswordsDiffer)]
  }

  /** The strength rules themselves; `PasswordIssues` reports nothing
      exactly when they hold. */
  predicate StrongPassword(s: string) {
    |s| >= 8 && HasUpper(s) && HasLower(s) && HasDigit(s) && HasSymbol(s)
  }

  /** The field checks of `personalSignupSchema` before `confirmPassword`,
      in declaration order. */
  function PersonalFieldIssues(form: PersonalSignup, isEmail: string -> bool): (r: seq<Issue>)
    ensures r == [] <==>
      && form.firstName != ""
      && form.lastName != ""
      && |form.phone| >= 10 && AllDigits(form.phone)
      && isEmail(form.email)
      && StrongPassword(form.password)
    ensures forall k :: 0 <= k < |r| ==> r[k].field !in {AcceptTerms, ConfirmPassword}
  {
    MinIssue(FirstName, form.firstName, 1) + MinIssue(LastName, form.lastName, 1)
    + PersonalContactIssues(form, isEmail)
  }

  /** The phone, email and password fields of `personalSignupSchema`. */
  function PersonalContactIssues(form: PersonalSignup, isEmail: string -> bool): (r: seq<Issue>)
    ensures r == [] <==>
      |form.phone| >= 10 && AllDigits(form.phone) && isEmail(form.email) && StrongPassword(form.password)
    ensures forall k :: 0 <= k < |r| ==> r[k].field in {Phone, Email, Password}
  {
    PhoneIssues(form.phone) + EmailIssue(Email, form.email, isEmail) + PasswordIssues(Password, form.password)
  }

  /** `personalSignupSchema` (auth-validation.ts, lines 20-33). */
  function PersonalSignupIssues(form: PersonalSignup, isEmail: string -> bool): (r: seq<Issue>)
    ensures r == [] <==>
      && form.firstName != ""
      && form.lastName != ""
      && |form.phone| >= 10 && AllDigits(form.phone)
      && isEmail(form.email)
      && StrongPassword(form.password)
      && form.password == form.confirmPassword
      && form.acceptTerms
    ensures Issue(ConfirmPassword, PasswordsDiffer) in r <==> form.password != form.confirmPassword
    ensures Issue(AcceptTerms, TermsNotAccepted) in r <==> !form.acceptTerms
  {
    var fields := PersonalFieldIssues(form, isEmail);
    var refinements := TermsIssue(form.acceptTerms) + ConfirmIssue(form.password, form.confirmPassword);
    assert Issue(ConfirmPassword, PasswordsDiffer) !in fields;
    assert Issue(AcceptTerms, TermsNotAccepted) !in fields;
    fields + refinements
  }

  /** The first four fields of `businessSignupSchema`: the two names, the
      email and the RFC. */
  function BusinessIdentityIssues(form: BusinessSignup, isEmail: string -> bool): (r: seq<Issue>)
    ensures r == [] <==>
      form.companyName != "" && form.legalRepName != "" && isEmail(form.email) && RfcMatches(form.rfc)
    ensures forall k :: 0 <= k < |r| ==> r[k].field in {CompanyName, LegalRepName, Email, Rfc}
  {
    MinIssue(CompanyName, form.companyName, 1)
    + MinIssue(LegalRepName, form.legalRepName, 1)
    + EmailIssue(Email, form.email, isEmail)
    + RfcIssues(form.rfc)
  }

  /** The last two fields of `businessSignupSchema`: the phone, then the
      password. */
  function CredentialIssues(phone: string, password: string): (r: seq<Issue>)
    ensures r == [] <==> |phone| >= 10 && AllDigits(phone) && StrongPassword(password)
    ensures forall k :: 0 <= k < |r| ==> r[k].field in {Phone, Password}
  {
    PhoneIssues(phone) + PasswordIssues(Password, password)
  }

  /** The field checks of `businessSignupSchema` before `confirmPassword`,
      in declaration order. */
  function BusinessFieldIssues(form: BusinessSignup, isEmail: string -> bool): (r: seq<Issue>)
    ensures r == [] <==>
      && form.companyName != ""
      && form.legalRepName != ""
      && isEmail(form.email)
      && RfcMatches(form.rfc)
      && |form.phone| >= 10 && AllDigits(form.phone)
      && StrongPassword(form.password)
    ensures forall k :: 0 <= k < |r| ==> r[k].field !in {AcceptTerms, ConfirmPassword}
  {
    BusinessIdentityIssues(form, isEmail) + CredentialIssues(form.phone, form.password)
  }

  /** `businessSignupSchema` (auth-validation.ts, lines 35-52). */
  function BusinessSignupIssues(form: BusinessSignup, isEmail: string -> bool): (r: seq<Issue>)
    ensures r == [] <==>
      && form.companyName != ""
      && form.legalRepName != ""
      && isEmail(form.email)
      && RfcMatches(form.rfc)
      && |form.phone| >= 10 && AllDigits(form.phone)
      && StrongPassword(form.password)
      && form.password == form.confirmPassword
      && form.acceptTerms
    ensures Issue(ConfirmPassword, PasswordsDiffer) in r <==> form.password != form.confirmPassword
    ensures Issue(AcceptTerms, TermsNotAccepted) in r <==> !form.acceptTerms
  {
    var fields := BusinessFieldIssues(form, isEmail);
    var refinements := TermsIssue(form.acceptTerms) + ConfirmIssue(form.password, form.confirmPassword);
    assert Issue(ConfirmPassword, PasswordsDiffer) !in fields;
    assert Issue(AcceptTerms, TermsNotAccepted) !in fields;
    fields + refinements
  }

  /** The password-mismatch issue is the last one reported and is attached
      to the confirmation field, whatever else is wrong with the form. */
  lemma MismatchReportedLast(form: PersonalSignup, isEmail: string -> bool)
    requires form.password != form.confirmPassword
    ensures var r := PersonalSignupIssues(form, isEmail);
      |r| > 0 && r[|r| - 1] == Issue(ConfirmPassword, PasswordsDiffer)
  {
  }
}

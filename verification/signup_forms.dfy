/** The two signup forms as they submit to their schemas.

    A form hands the schema only the fields it registers: a default value
    or a rendered input. A schema field that the form never registers
    arrives as `undefined`. The schema library reports that as a type error
    ("Required") and abandons the object, so the password-match refinement
    never runs and the submission is rejected. */
module SignupForms {
  import opened Wrappers
  import opened Chars
  import opened Schema
  import opened AuthValidation

  /** The value object handed to `personalSignupSchema`; `None` is a key the
      form never set. */
  datatype PersonalSubmission = PersonalSubmission(
    firstName: string,
    lastName: string,
    phone: string,
    email: string,
    password: string,
    confirmPassword: Option<string>,
    acceptTerms: Option<bool>)

  /** The value object handed to `businessSignupSchema`. */
  datatype BusinessSubmission = BusinessSubmission(
    companyName: string,
    legalRepName: string,
    email: string,
    rfc: string,
    phone: string,
    password: string,
    confirmPassword: Option<string>,
    acceptTerms: Option<bool>)

  /** The type check of a `z.string()` field: an absent key is `Required`. */
  function PresenceIssue(f: Field, present: bool): seq<AuthValidation.Issue> {
    if present then [] else [Schema.Issue(f, Required)]
  }

  /** `acceptTerms`: an absent key is `Required`; otherwise the terms
      refinement on the boolean runs. */
  function TermsField(accepted: Option<bool>): seq<AuthValidation.Issue> {
    match accepted
    case None => [Schema.Issue(AcceptTerms, Required)]
    case Some(b) => TermsIssue(b)
  }

  function PersonalForm(s: PersonalSubmission): PersonalSignup {
    PersonalSignup(s.firstName, s.lastName, s.phone, s.email, s.password,
      if s.confirmPassword.Some? then s.confirmPassword.value else "",
      s.acceptTerms == Some(true))
  }

  function BusinessForm(s: BusinessSubmission): BusinessSignup {
    BusinessSignup(s.companyName, s.legalRepName, s.email, s.rfc, s.phone, s.password,
      if s.confirmPassword.Some? then s.confirmPassword.value else "",
      s.acceptTerms == Some(true))
  }

  /** `personalSignupSchema.safeParse` on a submission. With every key
      present this is the schema on typed values. With a key missing, the
      field checks still report their issues and the missing key reports
      `Required`, but the refinement is skipped. */
  function ParsePersonal(s: PersonalSubmission, isEmail: string -> bool): (r: Result<PersonalSignup, seq<AuthValidation.Issue>>)
    ensures r.Success? <==>
      s.confirmPassword.Some? && s.acceptTerms.Some?
      && PersonalSignupIssues(PersonalForm(s), isEmail) == []
    ensures r.Success? ==> r.value == PersonalForm(s)
    ensures s.confirmPassword.None? ==>
      Schema.Issue(ConfirmPassword, Required) in r.error
      && Schema.Issue(ConfirmPassword, PasswordsDiffer) !in r.error
    ensures s.acceptTerms.None? ==> Schema.Issue(AcceptTerms, Required) in r.error
  {
    var form := PersonalForm(s);
    if s.confirmPassword.Some? && s.acceptTerms.Some? then
      var issues := PersonalSignupIssues(form, isEmail);
      if issues == [] then Success(form) else Failure(issues)
    else
      var fields := PersonalFieldIssues(form, isEmail);
      Failure(fields + PresenceIssue(ConfirmPassword, s.confirmPassword.Some?) + TermsField(s.acceptTerms))
  }

  /** `businessSignupSchema.safeParse` on a submission, as for the personal
      schema. */
  function ParseBusiness(s: BusinessSubmission, isEmail: string -> bool): (r: Result<BusinessSignup, seq<AuthValidation.Issue>>)
    ensures r.Success? <==>
      s.confirmPassword.Some? && s.acceptTerms.Some?
      && BusinessSignupIssues(BusinessForm(s), isEmail) == []
    ensures r.Success? ==> r.value == BusinessForm(s)
    ensures s.confirmPassword.None? ==>
      Schema.Issue(ConfirmPassword, Required) in r.error
      && Schema.Issue(ConfirmPassword, PasswordsDiffer) !in r.error
    ensures s.acceptTerms.None? ==> Schema.Issue(AcceptTerms, Required) in r.error
  {
    var form := BusinessForm(s);
    if s.confirmPassword.Some? && s.acceptTerms.Some? then
      var issues := BusinessSignupIssues(form, isEmail);
      if issues == [] then Success(form) else Failure(issues)
    else
      var fields := BusinessFieldIssues(form, isEmail);
      Failure(fields + PresenceIssue(ConfirmPassword, s.confirmPassword.Some?) + TermsField(s.acceptTerms))
  }

  /** What the personal signup form can hold: the six fields it renders and
      gives defaults to. There is no confirmation input. */
  datatype PersonalFormState = PersonalFormState(
    firstName: string,
    lastName: string,
    phone: string,
    email: string,
    password: string,
    acceptTerms: bool)

  /** What the business signup form can hold: six fields, with neither a
      confirmation input nor a terms checkbox. */
  datatype BusinessFormState = BusinessFormState(
    companyName: string,
    legalRepName: string,
    rfc: string,
    phone: string,
    email: string,
    password: string)

  /** Submitting the personal form as written: whatever the user enters,
      the confirmation is missing and the schema rejects the submission. */
  function SubmitPersonalForm(f: PersonalFormState, isEmail: string -> bool): (r: Result<PersonalSignup, seq<AuthValidation.Issue>>)
    ensures r.Failure?
    ensures Schema.Issue(ConfirmPassword, Required) in r.error
    ensures Schema.Issue(ConfirmPassword, PasswordsDiffer) !in r.error
  {
    ParsePersonal(PersonalSubmission(f.firstName, f.lastName, f.phone, f.email, f.password,
      None, Some(f.acceptTerms)), isEmail)
  }

  /** Submitting the business form as written: both the confirmation and
      the terms are missing, so every submission is rejected. */
  function SubmitBusinessForm(f: BusinessFormState, isEmail: string -> bool): (r: Result<BusinessSignup, seq<AuthValidation.Issue>>)
    ensures r.Failure?
    ensures Schema.Issue(ConfirmPassword, Required) in r.error
    ensures Schema.Issue(AcceptTerms, Required) in r.error
  {
    ParseBusiness(BusinessSubmission(f.companyName, f.legalRepName, f.email, f.rfc, f.phone, f.password,
      None, None), isEmail)
  }

  /** The personal form with a confirmation input registered beside the
      password. */
  datatype CorrectedPersonalFormState = CorrectedPersonalFormState(
    firstName: string,
    lastName: string,
    phone: string,
    email: string,
    password: string,
    confirmPassword: string,
    acceptTerms: bool)

  /** The business form with a confirmation input and a terms checkbox
      registered. */
  datatype CorrectedBusinessFormState = CorrectedBusinessFormState(
    companyName: string,
    legalRepName: string,
    rfc: string,
    phone: string,
    email: string,
    password: string,
    confirmPassword: string,
    acceptTerms: bool)

  /** With every key registered, the personal form submits exactly the
      values that the schema accepts on typed input, and otherwise reports
      that schema's issues. */
  function SubmitCorrectedPersonalForm(f: CorrectedPersonalFormState, isEmail: string -> bool): (r: Result<PersonalSignup, seq<AuthValidation.Issue>>)
    ensures var form := PersonalSignup(f.firstName, f.lastName, f.phone, f.email, f.password,
        f.confirmPassword, f.acceptTerms);
      && (r.Success? <==> PersonalSignupIssues(form, isEmail) == [])
      && (r.Success? ==> r.value == form)
      && (r.Failure? ==> r.error == PersonalSignupIssues(form, isEmail))
  {
    ParsePersonal(PersonalSubmission(f.firstName, f.lastName, f.phone, f.email, f.password,
      Some(f.confirmPassword), Some(f.acceptTerms)), isEmail)
  }

  /** The corrected business form, as for the personal one. */
  function SubmitCorrectedBusinessForm(f: CorrectedBusinessFormState, isEmail: string -> bool): (r: Result<BusinessSignup, seq<AuthValidation.Issue>>)
    ensures var form := BusinessSignup(f.companyName, f.legalRepName, f.email, f.rfc, f.phone,
        f.password, f.confirmPassword, f.acceptTerms);
      && (r.Success? <==> BusinessSignupIssues(form, isEmail) == [])
      && (r.Success? ==> r.value == form)
      && (r.Failure? ==> r.error == BusinessSignupIssues(form, isEmail))
  {
    ParseBusiness(BusinessSubmission(f.companyName, f.legalRepName, f.email, f.rfc, f.phone, f.password,
      Some(f.confirmPassword), Some(f.acceptTerms)), isEmail)
  }

  /** A strong password used by the examples below. */
  const ExamplePassword: string := "Casa2024!"

  lemma ExamplePasswordIsStrong()
    ensures StrongPassword(ExamplePassword)
  {
    assert IsUpper(ExamplePassword[0]);
    assert IsLower(ExamplePassword[1]);
    assert IsDigit(ExamplePassword[4]);
    assert !IsAlnum(ExamplePassword[8]);
  }

  /** A person whose entries satisfy every rule of the schema still cannot
      sign up through the form as written, while the corrected form accepts
      the same entries with the password typed twice. */
  lemma PersonalSignupBlocked(isEmail: string -> bool)
    requires isEmail("ana@example.com")
    ensures var entries := PersonalFormState("Ana", "Ruiz", "5512345678", "ana@example.com",
        ExamplePassword, true);
      && PersonalSignupIssues(PersonalSignup("Ana", "Ruiz", "5512345678", "ana@example.com",
           ExamplePassword, ExamplePassword, true), isEmail) == []
      && SubmitPersonalForm(entries, isEmail).Failure?
      && SubmitCorrectedPersonalForm(CorrectedPersonalFormState("Ana", "Ruiz", "5512345678",
           "ana@example.com", ExamplePassword, ExamplePassword, true), isEmail).Success?
  {
    ExamplePasswordIsStrong();
    var phone := "5512345678";
    assert forall i :: 0 <= i < |phone| ==> IsDigit(phone[i]);
    assert AllDigits(phone);
  }
}

/** The vocabulary of the form schemas: the checks a field can fail and the
    issue a failed check reports. A schema is modelled as the list of issues
    it reports; an input is accepted exactly when that list is empty. */
module Schema {

  /** The regular expressions the schemas test. */
  datatype Pattern =
    | OnlyDigits      // /^\d+$/
    | NeedsUpper      // /[A-Z]/
    | NeedsLower      // /[a-z]/
    | NeedsDigit      // /[0-9]/
    | NeedsSymbol     // /[^A-Za-z0-9]/
    | RfcFormat       // /^[A-Z&Ñ]{3,4}\d{6}[A-Z\d]{3}$/

  datatype Check =
    | MinLength(min: nat)
    | MaxLength(max: nat)
    | AtLeast(bound: int)
    | Mismatch(pattern: Pattern)
    | InvalidEmail
    | Required
    | TermsNotAccepted
    | PasswordsDiffer

  /** A failed check, attached to the field (of type `F`) it concerns. */
  datatype Issue<F> = Issue(field: F, check: Check)

  function MinIssue<F>(f: F, s: string, min: nat): seq<Issue<F>> {
    if |s| < min then [Issue(f, MinLength(min))] else []
  }

  function MaxIssue<F>(f: F, s: string, max: nat): seq<Issue<F>> {
    if |s| > max then [Issue(f, MaxLength(max))] else []
  }

  function PatternIssue<F>(f: F, ok: bool, p: Pattern): seq<Issue<F>> {
    if ok then [] else [Issue(f, Mismatch(p))]
  }

  function EmailIssue<F>(f: F, s: string, isEmail: string -> bool): seq<Issue<F>> {
    if isEmail(s) then [] else [Issue(f, InvalidEmail)]
  }
}

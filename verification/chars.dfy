/** ASCII character classes and digit strings, as the JavaScript regular
    expressions of the forms use them: `\d` and `[0-9]` are the ASCII digits
    only, `[A-Z]` and `[a-z]` the ASCII letters only. */
module Chars {

  predicate IsDigit(c: char) { '0' <= c <= '9' }
  predicate IsUpper(c: char) { 'A' <= c <= 'Z' }
  predicate IsLower(c: char) { 'a' <= c <= 'z' }

  /** `[A-Za-z0-9]`; its complement is the password rule's "symbol". */
  predicate IsAlnum(c: char) { IsUpper(c) || IsLower(c) || IsDigit(c) }

  /** Every character is a digit (the empty string included). */
  predicate AllDigits(s: string) {
    forall i :: 0 <= i < |s| ==> IsDigit(s[i])
  }

  /** `/^\d+$/.test(s)`: a non-empty run of digits and nothing else. */
  predicate DigitString(s: string) {
    |s| > 0 && AllDigits(s)
  }

  function DigitValue(c: char): (d: nat)
    requires IsDigit(c)
    ensures d < 10
  {
    c as int - '0' as int
  }

  function DigitChar(d: nat): (c: char)
    requires d < 10
    ensures IsDigit(c) && DigitValue(c) == d
  {
    ('0' as int + d) as char
  }

  /** The base-10 value of a digit string, read most significant digit
      first; the empty string is 0. */
  function DecimalValue(s: string): nat
    requires AllDigits(s)
  {
    if s == [] then 0
    else DecimalValue(s[..|s| - 1]) * 10 + DigitValue(s[|s| - 1])
  }

  /** The canonical base-10 rendering of `n`, with no leading zero
      (JavaScript's `String(n)` for a non-negative integer). */
  function DecimalString(n: nat): (s: string)
    ensures DigitString(s)
    ensures |s| > 1 ==> s[0] != '0'
  {
    if n < 10 then [DigitChar(n)]
    else DecimalString(n / 10) + [DigitChar(n % 10)]
  }

  /** Reading back the rendering of a number gives the number. */
  lemma {:induction false} DecimalRoundTrip(n: nat)
    ensures DecimalValue(DecimalString(n)) == n
  {
    if n >= 10 {
      DecimalRoundTrip(n / 10);
      var s := DecimalString(n);
      assert s[..|s| - 1] == DecimalString(n / 10);
    }
  }

  /** Leading zeros do not change the value of a digit string. */
  lemma {:induction false} LeadingZero(s: string)
    requires AllDigits(s)
    ensures AllDigits("0" + s) && DecimalValue("0" + s) == DecimalValue(s)
  {
    if s != [] {
      var t := "0" + s;
      assert t[..|t| - 1] == "0" + s[..|s| - 1];
      LeadingZero(s[..|s| - 1]);
    }
  }

  /** The characters of `s` that are digits, in their original order; the
      model of `s.replace(/\D/g, '')`. */
  function KeepDigits(s: string): (r: string)
    ensures AllDigits(r)
    ensures |r| <= |s|
  {
    if s == [] then []
    else KeepDigits(s[..|s| - 1]) + (if IsDigit(s[|s| - 1]) then [s[|s| - 1]] else [])
  }

  /** The positions of the digits of `s`, ascending. */
  function DigitPositions(s: string): (p: seq<nat>)
    ensures forall k :: 0 <= k < |p| ==> p[k] < |s| && IsDigit(s[p[k]])
    ensures forall k, l :: 0 <= k < l < |p| ==> p[k] < p[l]
    ensures forall i :: 0 <= i < |s| && IsDigit(s[i]) ==> i in p
  {
    if s == [] then []
    else DigitPositions(s[..|s| - 1]) + (if IsDigit(s[|s| - 1]) then [|s| - 1] else [])
  }

  /** `KeepDigits(s)` is exactly the subsequence of `s` at the digit
      positions: nothing added, nothing reordered, no digit dropped. */
  lemma {:induction false} KeepDigitsIsDigitSubsequence(s: string)
    ensures |KeepDigits(s)| == |DigitPositions(s)|
    ensures forall k :: 0 <= k < |KeepDigits(s)| ==> KeepDigits(s)[k] == s[DigitPositions(s)[k]]
  {
    if s != [] {
      var init := s[..|s| - 1];
      KeepDigitsIsDigitSubsequence(init);
      assert forall i :: 0 <= i < |init| ==> init[i] == s[i];
    }
  }

  /** A string that is already all digits passes the filter unchanged. */
  lemma {:induction false} KeepDigitsOfDigits(s: string)
    requires AllDigits(s)
    ensures KeepDigits(s) == s
  {
    if s != [] {
      KeepDigitsOfDigits(s[..|s| - 1]);
    }
  }

  /** Filtering twice is filtering once. */
  lemma KeepDigitsIdempotent(s: string)
    ensures KeepDigits(KeepDigits(s)) == KeepDigits(s)
  {
    KeepDigitsOfDigits(KeepDigits(s));
  }

  /** The filter as the browser applies it: one left-to-right pass. */
  method FilterDigits(s: string) returns (r: string)
    ensures r == KeepDigits(s)
  {
    r := "";
    var i := 0;
    while i < |s|
      invariant 0 <= i <= |s|
      invariant r == KeepDigits(s[..i])
    {
      assert s[..i + 1][..i] == s[..i];
      if IsDigit(s[i]) {
        r := r + [s[i]];
      }
      i := i + 1;
    }
    assert s[..|s|] == s;
  }

  /** `parseInt(s, 10)` on a digit string, accumulated left to right. */
  method ParseDecimal(s: string) returns (v: nat)
    requires AllDigits(s)
    ensures v == DecimalValue(s)
  {
    v := 0;
    var i := 0;
    while i < |s|
      invariant 0 <= i <= |s|
      invariant AllDigits(s[..i])
      invariant v == DecimalValue(s[..i])
    {
      assert s[..i + 1][..i] == s[..i];
      v := v * 10 + DigitValue(s[i]);
      i := i + 1;
    }
    assert s[..|s|] == s;
  }
}

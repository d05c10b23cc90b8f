/** Character-level rules shared by the schemas and the address store:
    the phone pattern `^\d{10,11}$` and JavaScript's `String(n)` on
    non-negative integers. */
module Text {

  /** `\d` in a JavaScript regular expression without the `u` flag. */
  predicate IsDigit(c: char) {
    '0' <= c <= '9'
  }

  predicate AllDigits(s: string) {
    forall i :: 0 <= i < |s| ==> IsDigit(s[i])
  }

  /** Anchored matcher for `^\d{lo,hi}$`: consumes one digit per step,
      counting down the lower and upper repetition bounds. */
  predicate MatchDigitRun(s: string, lo: nat, hi: nat)
    decreases |s|
  {
    if s == [] then lo == 0
    else hi > 0 && IsDigit(s[0]) && MatchDigitRun(s[1..], if lo > 0 then lo - 1 else 0, hi - 1)
  }

  /** The matcher accepts exactly the strings of `lo` to `hi` digits. */
  lemma {:induction false} MatchDigitRunIff(s: string, lo: nat, hi: nat)
    ensures MatchDigitRun(s, lo, hi) <==> lo <= |s| <= hi && AllDigits(s)
    decreases |s|
  {
    if s != [] && hi > 0 {
      MatchDigitRunIff(s[1..], if lo > 0 then lo - 1 else 0, hi - 1);
      if AllDigits(s) {
        assert AllDigits(s[1..]) by {
          forall i | 0 <= i < |s[1..]| ensures IsDigit(s[1..][i]) {
            assert s[1..][i] == s[i + 1];
          }
        }
      }
      if IsDigit(s[0]) && AllDigits(s[1..]) {
        forall i | 0 <= i < |s| ensures IsDigit(s[i]) {
          if i > 0 { assert s[i] == s[1..][i - 1]; }
        }
      }
    }
  }

  /** The phone rule `^\d{10,11}$` used by the address and order forms. */
  predicate IsPhoneNumber(s: string) {
    MatchDigitRun(s, 10, 11)
  }

  lemma PhoneNumberIff(s: string)
    ensures IsPhoneNumber(s) <==> (|s| == 10 || |s| == 11) && AllDigits(s)
  {
    MatchDigitRunIff(s, 10, 11);
  }

  function DigitChar(d: nat): (c: char)
    requires d < 10
    ensures IsDigit(c)
  {
    (48 + d) as char
  }

  function DigitValue(c: char): (d: nat)
    requires IsDigit(c)
    ensures d < 10 && DigitChar(d) == c
  {
    (c as int - 48) as nat
  }

  /** `String(n)` for a non-negative integer: its decimal digits, without
      leading zeros. */
  function NatToDecimal(n: nat): (s: string)
    ensures |s| >= 1 && AllDigits(s)
    ensures |s| > 1 ==> s[0] != '0'
    decreases n
  {
    if n < 10 then [DigitChar(n)] else NatToDecimal(n / 10) + [DigitChar(n % 10)]
  }

  /** The number a string of decimal digits denotes. */
  function DecimalValue(s: string): nat
    requires AllDigits(s)
    decreases |s|
  {
    if s == [] then 0
    else
      var init := s[..|s| - 1];
      assert AllDigits(init) by {
        forall i | 0 <= i < |init| ensures IsDigit(init[i]) { assert init[i] == s[i]; }
      }
      DecimalValue(init) * 10 + DigitValue(s[|s| - 1])
  }

  /** Reading back the decimal string recovers the number. */
  lemma {:induction false} DecimalRoundTrip(n: nat)
    ensures DecimalValue(NatToDecimal(n)) == n
    decreases n
  {
    if n >= 10 {
      DecimalRoundTrip(n / 10);
      var s := NatToDecimal(n);
      assert s[..|s| - 1] == NatToDecimal(n / 10);
      assert s[|s| - 1] == DigitChar(n % 10);
    }
  }

  /** Distinct numbers print as distinct strings. */
  lemma NatToDecimalInjective(m: nat, n: nat)
    ensures NatToDecimal(m) == NatToDecimal(n) <==> m == n
  {
    DecimalRoundTrip(m);
    DecimalRoundTrip(n);
  }
}

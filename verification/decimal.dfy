/**
 Decimal rendering of natural numbers, as Go's `strconv.Itoa` produces it for
 a non-negative argument, together with the parser that reads it back.
 */
module Decimal {

  predicate IsDigit(c: char) {
    '0' <= c <= '9'
  }

  predicate AllDigits(s: string) {
    forall i :: 0 <= i < |s| ==> IsDigit(s[i])
  }

  /** A decimal numeral as `Itoa` writes it: at least one digit and no leading zero. */
  predicate Canonical(s: string) {
    |s| >= 1 && AllDigits(s) && (s[0] == '0' ==> |s| == 1)
  }

  function DigitChar(d: nat): (c: char)
    requires d < 10
    ensures IsDigit(c)
  {
    ('0' as int + d) as char
  }

  function DigitValue(c: char): (d: nat)
    requires IsDigit(c)
    ensures d < 10 && DigitChar(d) == c
  {
    (c as int - '0' as int) as nat
  }

  /** The decimal numeral of `n`. */
  function FromNat(n: nat): (s: string)
    ensures Canonical(s)
    ensures s[0] == '0' <==> n == 0
  {
    if n < 10 then [DigitChar(n)] else FromNat(n / 10) + [DigitChar(n % 10)]
  }

  /** The value of a string of decimal digits. */
  function ToNat(s: string): (n: nat)
    requires AllDigits(s)
  {
    if |s| == 0 then 0 else ToNat(s[..|s| - 1]) * 10 + DigitValue(s[|s| - 1])
  }

  /** Reading back the numeral of `n` gives `n`. */
  lemma {:induction false} ToNatFromNat(n: nat)
    ensures ToNat(FromNat(n)) == n
  {
    if n >= 10 {
      var s := FromNat(n);
      assert s[..|s| - 1] == FromNat(n / 10);
      ToNatFromNat(n / 10);
    }
  }

  /** A numeral without a leading zero denotes a positive number. */
  lemma {:induction false} LeadingNonZeroPositive(s: string)
    requires |s| >= 1 && AllDigits(s) && s[0] != '0'
    ensures ToNat(s) >= 1
  {
    if |s| > 1 {
      LeadingNonZeroPositive(s[..|s| - 1]);
    }
  }

  /** Every canonical numeral is the rendering of its own value. */
  lemma {:induction false} FromNatToNat(s: string)
    requires Canonical(s)
    ensures FromNat(ToNat(s)) == s
  {
    var n := ToNat(s);
    if |s| > 1 {
      var init := s[..|s| - 1];
      LeadingNonZeroPositive(init);
      assert n / 10 == ToNat(init) && n % 10 == DigitValue(s[|s| - 1]);
      FromNatToNat(init);
      assert s == init + [s[|s| - 1]];
    }
  }
}

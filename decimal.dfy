/** Decimal rendering of a millisecond timestamp, as `Date.now().toString()`
    produces it; the storefront builds user ids and order codes from it. */
module Decimal {

  function Digit(d: nat): (c: char)
    requires d < 10
  {
    "0123456789"[d]
  }

  predicate IsDigit(c: char) {
    '0' <= c <= '9'
  }

  /** The shortest decimal numeral of `n`, most significant digit first. */
  function DecimalString(n: nat): (s: string)
    ensures |s| >= 1
    ensures forall i :: 0 <= i < |s| ==> IsDigit(s[i])
    ensures n < 10 <==> |s| == 1
  {
    if n < 10 then [Digit(n)] else DecimalString(n / 10) + [Digit(n % 10)]
  }

  lemma DigitInjective(a: nat, b: nat)
    requires a < 10 && b < 10 && Digit(a) == Digit(b)
    ensures a == b
  {
  }

  /** Different timestamps give different numerals. */
  lemma {:induction false} DecimalStringInjective(a: nat, b: nat)
    requires DecimalString(a) == DecimalString(b)
    ensures a == b
  {
    var s := DecimalString(a);
    if a < 10 {
      DigitInjective(a, b);
    } else {
      assert b >= 10;
      assert s[|s| - 1] == Digit(a % 10) == Digit(b % 10);
      DigitInjective(a % 10, b % 10);
      assert DecimalString(a / 10) == s[..|s| - 1] == DecimalString(b / 10);
      DecimalStringInjective(a / 10, b / 10);
    }
  }

  /** A fixed prefix followed by the numeral of a timestamp (an order code
      "AC…" or a bare user id) identifies the timestamp. */
  lemma PrefixedInjective(prefix: string, a: nat, b: nat)
    requires prefix + DecimalString(a) == prefix + DecimalString(b)
    ensures a == b
  {
    assert DecimalString(a) == (prefix + DecimalString(a))[|prefix|..];
    assert DecimalString(b) == (prefix + DecimalString(b))[|prefix|..];
    DecimalStringInjective(a, b);
  }
}

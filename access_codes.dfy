/**
 * The rotating access code: a value drawn as (int)(10.0 + Math.random() * 90.0)
 * and kept as its decimal text, together with the rule that decides when it
 * is replaced.
 */
module AccessCodes {
  import opened Names

  /** Milliseconds a code stays current before the main loop replaces it. */
  const RotationPeriod: int := 30000

  /**
   * The code drawn from one random sample u in [0, 1): the cast to int
   * truncates 10 + 90u, which is positive, so it is its floor.
   */
  function CodeFromRandom(u: real): (n: int)
    requires 0.0 <= u < 1.0
    ensures 10 <= n <= 99
  {
    (10.0 + u * 90.0).Floor
  }

  function Digit(d: nat): (c: char)
    requires d < 10
    ensures IsDigit(c)
  {
    ('0' as int + d) as char
  }

  function DigitValue(c: char): (d: nat)
    requires IsDigit(c)
    ensures d < 10 && Digit(d) == c
  {
    c as int - '0' as int
  }

  /** Integer.toString of a non-negative value: its decimal digits, most significant first. */
  function DecimalString(n: nat): string
  {
    if n < 10 then [Digit(n)] else DecimalString(n / 10) + [Digit(n % 10)]
  }

  /** The number a string of digits denotes (0 for the empty string). */
  function DigitsValue(s: string): nat
    requires forall i :: 0 <= i < |s| ==> IsDigit(s[i])
  {
    if s == [] then 0 else DigitsValue(s[..|s| - 1]) * 10 + DigitValue(s[|s| - 1])
  }

  /** The text of a code the producer can hold: two digits, the first not zero. */
  predicate ValidCode(s: string) {
    |s| == 2 && IsDigits(s) && s[0] != '0'
  }

  /** The decimal text is a digit string with no leading zero, and denotes n again. */
  lemma {:induction false} DecimalRoundTrip(n: nat)
    ensures IsDigits(DecimalString(n))
    ensures DigitsValue(DecimalString(n)) == n
    ensures n > 0 ==> DecimalString(n)[0] != '0'
  {
    var s := DecimalString(n);
    if n >= 10 {
      DecimalRoundTrip(n / 10);
      assert s[..|s| - 1] == DecimalString(n / 10);
    }
  }

  /** Decimal text is one-to-one: different values never share a text. */
  lemma DecimalInjective(m: nat, n: nat)
    requires DecimalString(m) == DecimalString(n)
    ensures m == n
  {
    DecimalRoundTrip(m);
    DecimalRoundTrip(n);
  }

  /** A value in [10, 99] is written as a valid code. */
  lemma CodeTextValid(n: int)
    requires 10 <= n <= 99
    ensures ValidCode(DecimalString(n))
  {
    DecimalRoundTrip(n);
    assert DecimalString(n) == [Digit(n / 10), Digit(n % 10)];
  }

  /** Every valid code is the decimal text of exactly one value in [10, 99]. */
  lemma ValidCodeIsDecimal(s: string)
    requires ValidCode(s)
    ensures 10 <= DigitsValue(s) <= 99
    ensures DecimalString(DigitsValue(s)) == s
  {
    var hi, lo := DigitValue(s[0]), DigitValue(s[1]);
    assert s[..1] == [s[0]];
    assert DigitsValue(s[..1]) == hi;
    var n := DigitsValue(s);
    assert n == hi * 10 + lo;
    assert n / 10 == hi && n % 10 == lo;
    assert DecimalString(n) == [Digit(hi), Digit(lo)];
  }

  /** The codes that rotation can produce are exactly the valid codes. */
  lemma ValidCodeIffDrawn(s: string)
    ensures ValidCode(s) <==> exists n :: 10 <= n <= 99 && s == DecimalString(n)
  {
    if ValidCode(s) {
      ValidCodeIsDecimal(s);
    }
    if exists n :: 10 <= n <= 99 && s == DecimalString(n) {
      var n :| 10 <= n <= 99 && s == DecimalString(n);
      CodeTextValid(n);
    }
  }
}

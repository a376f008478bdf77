/**
 * JavaScript turns a number used as an object key into its decimal string;
 * `World.addController` relies on that when it files a controller under the
 * counter `nextControllerName`. Only the non-negative integers are needed.
 */
module Decimal {
  /** The character of the digit `d`. */
  function DigitChar(d: nat): char
    requires d < 10
  {
    "0123456789"[d]
  }

  /** The value of a digit character, if it is one. */
  function DigitValue(c: char): (r: int)
    ensures -1 <= r < 10
  {
    if '0' <= c <= '9' then (c as int) - ('0' as int) else -1
  }

  /** `String(n)`: the shortest decimal representation of `n`. */
  function DecimalString(n: nat): (s: string)
    ensures 0 < |s|
    ensures forall i :: 0 <= i < |s| ==> 0 <= DigitValue(s[i])
  {
    if n < 10 then [DigitChar(n)] else DecimalString(n / 10) + [DigitChar(n % 10)]
  }

  /** The value of a string of decimal digits (read from the left). */
  function ParseDecimal(s: string): int {
    if |s| == 0 then 0 else ParseDecimal(s[..|s| - 1]) * 10 + DigitValue(s[|s| - 1])
  }

  lemma DigitRoundTrip(d: nat)
    requires d < 10
    ensures DigitValue(DigitChar(d)) == d
  { }

  /** Reading the decimal string of `n` back gives `n`. */
  lemma {:induction false} DecimalRoundTrip(n: nat)
    ensures ParseDecimal(DecimalString(n)) == n
  {
    if n < 10 {
      DigitRoundTrip(n);
      assert ParseDecimal([DigitChar(n)]) == ParseDecimal([]) * 10 + DigitValue(DigitChar(n));
    } else {
      var s := DecimalString(n);
      DecimalRoundTrip(n / 10);
      DigitRoundTrip(n % 10);
      assert s[..|s| - 1] == DecimalString(n / 10);
    }
  }

  /** Different numbers get different keys, so the counter never reuses one of its own names. */
  lemma DecimalStringInjective(m: nat, n: nat)
    ensures DecimalString(m) == DecimalString(n) ==> m == n
  {
    DecimalRoundTrip(m);
    DecimalRoundTrip(n);
  }
}

/** Numbers and their textual forms as the Java side renders them: bytes,
    `Long.toString` (what `"prefix" + id` produces), `Integer.toHexString`,
    and 32-bit two's-complement arithmetic. */
module Numeric {

  newtype byte = x: int | 0 <= x < 256

  const IntMin := -0x8000_0000
  const IntMax := 0x7fff_ffff

  predicate IsDigit(c: char) {
    '0' <= c <= '9'
  }

  predicate AllDigits(s: string) {
    forall i :: 0 <= i < |s| ==> IsDigit(s[i])
  }

  function DigitChar(d: nat): (c: char)
    requires d < 10
    ensures IsDigit(c) && c as int - '0' as int == d
  {
    ('0' as int + d) as char
  }

  /** Decimal digits of a non-negative number, without leading zeros. */
  function NatToDecimal(n: nat): (s: string)
    ensures |s| >= 1 && AllDigits(s)
    ensures s[0] == '0' ==> n == 0
    decreases n
  {
    if n < 10 then [DigitChar(n)] else NatToDecimal(n / 10) + [DigitChar(n % 10)]
  }

  /** The number a string of decimal digits denotes (the inverse of NatToDecimal). */
  function DecimalValue(s: string): nat
    requires AllDigits(s)
  {
    if s == [] then 0 else 10 * DecimalValue(s[..|s| - 1]) + (s[|s| - 1] as int - '0' as int)
  }

  lemma {:induction false} DecimalRoundTrip(n: nat)
    ensures DecimalValue(NatToDecimal(n)) == n
  {
    if n >= 10 {
      var s := NatToDecimal(n);
      assert s[..|s| - 1] == NatToDecimal(n / 10);
      DecimalRoundTrip(n / 10);
    }
  }

  /** `Long.toString(i)`: an optional minus sign followed by the decimal digits. */
  function LongToString(i: int): string {
    if i < 0 then "-" + NatToDecimal(-i) else NatToDecimal(i)
  }

  /** The rendering uses only digits and '-', so it never contains a ':' or '|'. */
  lemma LongToStringAlphabet(i: int)
    ensures |LongToString(i)| >= 1
    ensures forall k :: 0 <= k < |LongToString(i)| ==> IsDigit(LongToString(i)[k]) || LongToString(i)[k] == '-'
    ensures ':' !in LongToString(i) && '|' !in LongToString(i)
  {
    var s := LongToString(i);
    forall k | 0 <= k < |s| ensures IsDigit(s[k]) || s[k] == '-' {
      if i < 0 && k > 0 {
        assert s[k] == NatToDecimal(-i)[k - 1];
      }
    }
  }

  /** Distinct ids render to distinct strings. */
  lemma {:induction false} LongToStringInjective(a: int, b: int)
    requires LongToString(a) == LongToString(b)
    ensures a == b
  {
    var s := LongToString(a);
    assert (s[0] == '-') == (a < 0);
    assert (LongToString(b)[0] == '-') == (b < 0);
    if a < 0 && b < 0 {
      assert NatToDecimal(-a) == s[1..] == NatToDecimal(-b);
      DecimalRoundTrip(-a);
      DecimalRoundTrip(-b);
    } else if a >= 0 && b >= 0 {
      DecimalRoundTrip(a);
      DecimalRoundTrip(b);
    }
  }

  predicate IsLowerHexDigit(c: char) {
    '0' <= c <= '9' || 'a' <= c <= 'f'
  }

  function HexDigit(d: nat): (c: char)
    requires d < 16
    ensures IsLowerHexDigit(c)
  {
    if d < 10 then ('0' as int + d) as char else ('a' as int + d - 10) as char
  }

  /** The value of one lower-case hex digit (the inverse of HexDigit). */
  function HexValue(c: char): (d: nat)
    requires IsLowerHexDigit(c)
    ensures d < 16 && HexDigit(d) == c
  {
    if c <= '9' then c as int - '0' as int else c as int - 'a' as int + 10
  }

  lemma HexValueOfDigit(d: nat)
    requires d < 16
    ensures HexValue(HexDigit(d)) == d
  {
  }

  /** `Integer.toHexString(n)` for a non-negative `n`: lower-case digits, no leading zeros. */
  function IntegerToHexString(n: nat): (s: string)
    ensures |s| >= 1
    ensures forall k :: 0 <= k < |s| ==> IsLowerHexDigit(s[k])
    decreases n
  {
    if n < 16 then [HexDigit(n)] else IntegerToHexString(n / 16) + [HexDigit(n % 16)]
  }

  /** Reduction to Java's 32-bit `int`: the unique value in range congruent to `x`. */
  function ToInt32(x: int): (r: int)
    ensures IntMin <= r <= IntMax
    ensures (r - x) % 0x1_0000_0000 == 0
  {
    var m := x % 0x1_0000_0000;
    if m > IntMax then m - 0x1_0000_0000 else m
  }

  /** `Math.abs(int)`, which overflows on the smallest value. */
  function MathAbs(x: int): (r: int)
    requires IntMin <= x <= IntMax
    ensures x != IntMin ==> r >= 0 && (r == x || r == -x)
  {
    if x < 0 then ToInt32(-x) else x
  }

  /** The one input for which `Math.abs` is negative. */
  lemma MathAbsOfIntMin()
    ensures MathAbs(IntMin) == IntMin < 0
  {
  }
}

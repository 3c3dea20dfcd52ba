/** The parts of Java's 32-bit `int` that the modelled code relies on:
    the range, wrap-around of `++` and `-`, truncating `/` and `%`, and
    `Integer.parseInt` / `Integer.toString` in base ten. */
module JavaInt {
  import opened Wrappers

  const MIN_VALUE: int := -0x8000_0000
  const MAX_VALUE: int := 0x7FFF_FFFF

  predicate InRange(n: int) { MIN_VALUE <= n <= MAX_VALUE }

  /** Two's-complement wrap-around of a mathematical result into `int`. */
  function Wrap(n: int): (r: int)
    ensures InRange(r)
    ensures (r - n) % 0x1_0000_0000 == 0
    ensures InRange(n) ==> r == n
  {
    (n - MIN_VALUE) % 0x1_0000_0000 + MIN_VALUE
  }

  /** Java's `/` for a positive divisor: the quotient is truncated toward zero. */
  function Div(a: int, b: int): (q: int)
    requires b > 0
    ensures a >= 0 ==> 0 <= a - b * q < b
    ensures a < 0 ==> -b < a - b * q <= 0
  {
    if a >= 0 then a / b else -((-a) / b)
  }

  /** Java's `%` for a positive divisor: the remainder takes the sign of `a`. */
  function Rem(a: int, b: int): (r: int)
    requires b > 0
    ensures a == b * Div(a, b) + r
    ensures a >= 0 ==> 0 <= r < b && r == a % b
    ensures a < 0 ==> -b < r <= 0
  {
    a - b * Div(a, b)
  }

  /** For a non-negative dividend Java's `/` and `%` agree with Dafny's. */
  lemma NonNegativeDivRem(a: int, b: int)
    requires b > 0 && a >= 0
    ensures Div(a, b) == a / b && Rem(a, b) == a % b
  {
  }

  /** A dividend strictly between `-b` and 0 truncates to quotient 0 and is
      its own remainder. */
  lemma SmallNegativeDivRem(a: int, b: int)
    requires b > 0 && -b < a < 0
    ensures Div(a, b) == 0 && Rem(a, b) == a
  {
    assert (-a) / b == 0;
  }

  predicate IsDigit(c: char) { '0' <= c <= '9' }

  predicate AllDigits(s: string) { forall i :: 0 <= i < |s| ==> IsDigit(s[i]) }

  function DigitValue(c: char): nat
    requires IsDigit(c)
  {
    (c - '0') as nat
  }

  function DigitChar(d: nat): (c: char)
    requires d < 10
    ensures IsDigit(c) && DigitValue(c) == d
  {
    ('0' as int + d) as char
  }

  /** The value of a run of decimal digits, most significant first. */
  function DigitsValue(s: string): nat
    requires AllDigits(s)
  {
    if |s| == 0 then 0 else DigitsValue(s[..|s| - 1]) * 10 + DigitValue(s[|s| - 1])
  }

  /** `Integer.parseInt(s)`: an optional `-` or `+`, then at least one decimal
      digit, and a value that fits in `int`; anything else throws
      `NumberFormatException`, modelled as `None`. */
  function ParseInt(s: string): (r: Option<int>)
    ensures r.Some? ==> InRange(r.value)
  {
    if |s| == 0 then None
    else
      var negative := s[0] == '-';
      var digits := if s[0] == '-' || s[0] == '+' then s[1..] else s;
      if |digits| == 0 || !AllDigits(digits) then None
      else
        var v: int := DigitsValue(digits);
        var n := if negative then -v else v;
        if InRange(n) then Some(n) else None
  }

  /** Decimal digits of a natural number, without leading zeros. */
  function NatToDigits(n: nat): (s: string)
    ensures |s| > 0 && AllDigits(s)
  {
    if n < 10 then [DigitChar(n)] else NatToDigits(n / 10) + [DigitChar(n % 10)]
  }

  /** `Integer.toString(n)`: a `-` for negative values, then the digits. */
  function ToString(n: int): (s: string)
    ensures forall i :: 0 <= i < |s| ==> IsDigit(s[i]) || s[i] == '-'
  {
    if n < 0 then "-" + NatToDigits(-n) else NatToDigits(n)
  }

  lemma {:induction false} NatToDigitsValue(n: nat)
    ensures DigitsValue(NatToDigits(n)) == n
  {
    if n >= 10 {
      var s := NatToDigits(n / 10);
      var t := s + [DigitChar(n % 10)];
      assert t[..|t| - 1] == s;
      NatToDigitsValue(n / 10);
    }
  }

  /** `Integer.parseInt(Integer.toString(n)) == n` for every `int`. */
  lemma ParseToString(n: int)
    requires InRange(n)
    ensures ParseInt(ToString(n)) == Some(n)
  {
    if n < 0 {
      var d := NatToDigits(-n);
      var s := "-" + d;
      assert s[0] == '-' && s[1..] == d;
      NatToDigitsValue(-n);
      assert DigitsValue(d) == -n;
    } else {
      var d := NatToDigits(n);
      assert IsDigit(d[0]);
      NatToDigitsValue(n);
      assert DigitsValue(d) == n;
    }
  }

  /** Distinct `int` values print differently. */
  lemma ToStringInjective(m: int, n: int)
    requires InRange(m) && InRange(n) && ToString(m) == ToString(n)
    ensures m == n
  {
    ParseToString(m);
    ParseToString(n);
  }
}

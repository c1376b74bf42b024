/** Exact decimal arithmetic as the program uses it: values are exact
    rationals (`real`), and a value quantized to `Decimal("0.01")` is kept
    as the integer number of hundredths it denotes. */
module Decimals {
  import opened Wrappers

  /** Python's ROUND_HALF_UP: the nearest integer, ties away from zero. */
  function RoundHalfUp(x: real): (n: int)
    ensures x >= 0.0 ==> n as real - 0.5 <= x < n as real + 0.5
    ensures x < 0.0 ==> n as real - 0.5 < x <= n as real + 0.5
  {
    if x >= 0.0 then (x + 0.5).Floor else -((0.5 - x).Floor)
  }

  /** Python's ROUND_HALF_EVEN, the rounding of the default decimal
      context: the nearest integer, ties to the even neighbour. */
  function RoundHalfEven(x: real): (n: int)
    ensures -0.5 <= x - n as real <= 0.5
    ensures (x - n as real == 0.5 || n as real - x == 0.5) ==> n % 2 == 0
  {
    var f := x.Floor;
    var d := x - f as real;
    if d < 0.5 then f
    else if d > 0.5 then f + 1
    else if f % 2 == 0 then f
    else f + 1
  }

  /** `x.quantize(Decimal("0.01"), rounding=ROUND_HALF_UP)`, as hundredths. */
  function QuantizeHalfUp(x: real): (h: int)
    ensures x >= 0.0 ==> h as real - 0.5 <= 100.0 * x < h as real + 0.5
    ensures x < 0.0 ==> h as real - 0.5 < 100.0 * x <= h as real + 0.5
  {
    RoundHalfUp(100.0 * x)
  }

  /** `x.quantize(Decimal("0.01"))` in the default context, as hundredths. */
  function QuantizeHalfEven(x: real): (h: int)
    ensures -0.5 <= 100.0 * x - h as real <= 0.5
    ensures (100.0 * x - h as real == 0.5 || h as real - 100.0 * x == 0.5) ==> h % 2 == 0
  {
    RoundHalfEven(100.0 * x)
  }

  /** The value `h` hundredths stand for. */
  function Hundredths(h: int): real {
    h as real / 100.0
  }

  /** Rounding never leaves an interval whose ends are whole hundredths,
      and a value that already is a whole number of hundredths is kept. */
  lemma QuantizeHalfEvenBounds(x: real, lo: int, hi: int)
    requires Hundredths(lo) <= x <= Hundredths(hi)
    ensures lo <= QuantizeHalfEven(x) <= hi
    ensures x == Hundredths(lo) ==> QuantizeHalfEven(x) == lo
  {
    var h := QuantizeHalfEven(x);
    assert lo as real <= 100.0 * x <= hi as real;
  }

  lemma QuantizeHalfUpExact(h: int)
    ensures QuantizeHalfUp(Hundredths(h)) == h
  {
    assert 100.0 * Hundredths(h) == h as real;
  }

  /** The two rounding modes differ on a tie with an even lower neighbour:
      10.005 becomes 10.01 half-up and 10.00 half-even. */
  lemma HalfUpAgainstHalfEven()
    ensures QuantizeHalfUp(10.005) == 1001
    ensures QuantizeHalfEven(10.005) == 1000
  {
    assert 100.0 * 10.005 == 1000.5;
  }

  // ---- decimal text of a 2-place value -------------------------------------

  function DigitChar(d: int): char
    requires 0 <= d < 10
  {
    ('0' as int + d) as char
  }

  predicate IsDigit(ch: char) {
    '0' <= ch <= '9'
  }

  predicate AllDigits(s: string) {
    forall i :: 0 <= i < |s| ==> IsDigit(s[i])
  }

  function DigitValue(ch: char): (v: int)
    requires IsDigit(ch)
    ensures 0 <= v <= 9
  {
    ch as int - '0' as int
  }

  /** Decimal digits of `n`, most significant first, without leading zeros. */
  function Digits(n: nat): (s: string)
    ensures |s| >= 1 && AllDigits(s)
    ensures |s| > 1 ==> s[0] != '0'
    decreases n
  {
    if n < 10 then [DigitChar(n)] else Digits(n / 10) + [DigitChar(n % 10)]
  }

  /** The number a string of decimal digits denotes. */
  function DigitsValue(s: string): nat
    requires AllDigits(s)
  {
    if s == [] then 0 else 10 * DigitsValue(s[..|s| - 1]) + DigitValue(s[|s| - 1])
  }

  lemma {:induction false} DigitsRoundTrip(n: nat)
    ensures DigitsValue(Digits(n)) == n
    decreases n
  {
    if n >= 10 {
      var s := Digits(n);
      assert s[..|s| - 1] == Digits(n / 10);
      DigitsRoundTrip(n / 10);
    }
  }

  /** The text of `m` hundredths without sign: the integer part, '.', and
      exactly two decimals. */
  function Unsigned(m: nat): (s: string)
    ensures |s| >= 4 && s[|s| - 3] == '.'
    ensures IsDigit(s[0]) && IsDigit(s[|s| - 2]) && IsDigit(s[|s| - 1])
  {
    Digits(m / 100) + ['.', DigitChar(m / 10 % 10), DigitChar(m % 10)]
  }

  /** `str(d)` of a Decimal `d` quantized to 0.01 that holds `h` hundredths:
      an optional minus sign, the integer part and exactly two decimals. */
  function FormatHundredths(h: int): (s: string)
    ensures |s| >= 4 && s[|s| - 3] == '.'
    ensures IsDigit(s[|s| - 2]) && IsDigit(s[|s| - 1])
  {
    if h < 0 then "-" + Unsigned(-h) else Unsigned(h)
  }

  /** A reader for `digits.dd`. */
  function ReadUnsigned(body: string): Option<nat> {
    if |body| < 4 || body[|body| - 3] != '.' then None
    else
      var whole := body[..|body| - 3];
      var d1, d2 := body[|body| - 2], body[|body| - 1];
      if !AllDigits(whole) || !IsDigit(d1) || !IsDigit(d2) then None
      else Some(100 * DigitsValue(whole) + 10 * DigitValue(d1) + DigitValue(d2))
  }

  /** A reader for the text `FormatHundredths` writes: `[-]digits.dd`. */
  function ReadHundredths(s: string): Option<int> {
    if |s| > 0 && s[0] == '-' then
      match ReadUnsigned(s[1..])
      case None => None
      case Some(m) => Some(-(m as int))
    else
      match ReadUnsigned(s)
      case None => None
      case Some(m) => Some(m)
  }

  lemma UnsignedRoundTrip(m: nat)
    ensures ReadUnsigned(Unsigned(m)) == Some(m)
  {
    var ds := Digits(m / 100);
    var d1, d2 := DigitChar(m / 10 % 10), DigitChar(m % 10);
    var body := Unsigned(m);
    assert body[..|body| - 3] == ds;
    assert body[|body| - 2] == d1 && body[|body| - 1] == d2;
    DigitsRoundTrip(m / 100);
    assert DigitValue(d1) == m / 10 % 10 && DigitValue(d2) == m % 10;
    assert 100 * (m / 100) + 10 * (m / 10 % 10) + m % 10 == m;
  }

  /** The text of a 2-place value reads back as that value, so distinct
      values are written as distinct strings. */
  lemma FormatRoundTrip(h: int)
    ensures ReadHundredths(FormatHundredths(h)) == Some(h)
  {
    if h < 0 {
      var s := FormatHundredths(h);
      assert s[0] == '-' && s[1..] == Unsigned(-h);
      UnsignedRoundTrip(-h);
    } else {
      assert FormatHundredths(h)[0] != '-';
      UnsignedRoundTrip(h);
    }
  }
}

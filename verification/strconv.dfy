/**
 * Decimal conversions standing for Go's `fmt.Sprintf("%d")`,
 * `strconv.Atoi`, `strconv.ParseInt(s, 10, 64)` and
 * `strconv.ParseUint(s, 10, 64)`, with Go's 64-bit ranges made explicit.
 */
module Strconv {
  import opened Wrappers

  const MinInt64: int := -0x8000_0000_0000_0000
  const MaxInt64: int := 0x7FFF_FFFF_FFFF_FFFF
  const TwoTo64: int := 0x1_0000_0000_0000_0000

  /** Two's-complement wrap-around of Go's 64-bit `int` arithmetic. */
  function WrapInt64(x: int): (r: int)
    ensures MinInt64 <= r <= MaxInt64
    ensures MinInt64 <= x <= MaxInt64 ==> r == x
  {
    var m := (x - MinInt64) % TwoTo64;
    m + MinInt64
  }

  /** Wrap-around of Go's `uint64` arithmetic. */
  function WrapUint64(x: int): (r: nat)
    ensures r < TwoTo64
    ensures 0 <= x < TwoTo64 ==> r == x
  {
    x % TwoTo64
  }

  /** Adding after a wrap wraps to the same value as adding first. */
  lemma WrapUint64Add(a: int, b: int)
    ensures WrapUint64(WrapUint64(a) + b) == WrapUint64(a + b)
  {
    var q := a / TwoTo64;
    assert a == q * TwoTo64 + WrapUint64(a);
    assert a + b == q * TwoTo64 + (WrapUint64(a) + b);
  }

  predicate IsDigit(c: char) { '0' <= c <= '9' }

  predicate AllDigits(s: string) { forall i :: 0 <= i < |s| ==> IsDigit(s[i]) }

  function DigitChar(d: nat): (c: char)
    requires d < 10
    ensures IsDigit(c) && c as int - '0' as int == d
  {
    ('0' as int + d) as char
  }

  /** The value of a non-empty or empty run of decimal digits. */
  function DigitsValue(s: string): nat
    requires AllDigits(s)
    decreases |s|
  {
    if s == [] then 0 else DigitsValue(s[..|s| - 1]) * 10 + (s[|s| - 1] as int - '0' as int)
  }

  /** Decimal text of a natural number, without leading zeros. */
  function NatToString(n: nat): (s: string)
    ensures |s| >= 1 && AllDigits(s)
    ensures |s| > 1 ==> s[0] != '0'
    decreases n
  {
    if n < 10 then [DigitChar(n)] else NatToString(n / 10) + [DigitChar(n % 10)]
  }

  /** `fmt.Sprintf("%d", n)`. */
  function Itoa(n: int): (s: string)
    ensures |s| >= 1
    ensures n >= 0 ==> AllDigits(s)
    ensures n < 0 ==> s[0] == '-' && AllDigits(s[1..])
  {
    if n < 0 then "-" + NatToString(-n) else NatToString(n)
  }

  /** The digits of `NatToString(n)` read back give `n`. */
  lemma {:induction false} DigitsValueOfNat(n: nat)
    ensures DigitsValue(NatToString(n)) == n
    decreases n
  {
    var s := NatToString(n);
    if n >= 10 {
      DigitsValueOfNat(n / 10);
      assert s[..|s| - 1] == NatToString(n / 10);
    }
  }

  /** Signed decimal text: an optional '+' or '-' then at least one digit. */
  function SignedValue(s: string): (r: Option<int>)
    ensures r.Some? ==> |s| > 0
  {
    if |s| > 0 && (s[0] == '+' || s[0] == '-') then
      if |s| > 1 && AllDigits(s[1..]) then
        var d: int := DigitsValue(s[1..]);
        var v: int := if s[0] == '-' then 0 - d else d;
        Some(v)
      else None
    else if |s| > 0 && AllDigits(s) then Some(DigitsValue(s))
    else None
  }

  /** `strconv.Atoi` on a 64-bit platform: syntax and range are both checked. */
  function Atoi(s: string): (r: Option<int>)
    ensures r.Some? ==> MinInt64 <= r.value <= MaxInt64
    ensures r.Some? ==> SignedValue(s) == r
  {
    match SignedValue(s)
    case Some(v) => if MinInt64 <= v <= MaxInt64 then Some(v) else None
    case None => None
  }

  /** `Atoi` reads back what `Itoa` writes, for every 64-bit integer. */
  lemma AtoiItoa(n: int)
    requires MinInt64 <= n <= MaxInt64
    ensures Atoi(Itoa(n)) == Some(n)
  {
    var s := Itoa(n);
    if n < 0 {
      DigitsValueOfNat(-n);
      assert s[1..] == NatToString(-n);
      assert s[0] != '+' && s[0] == '-';
    } else {
      DigitsValueOfNat(n);
      assert IsDigit(s[0]);
    }
  }

  /**
   * `strconv.ParseInt(s, 10, 64)` with its error ignored, as Go code does
   * with `v, _ = strconv.ParseInt(...)`: a syntax error gives 0 and an
   * out-of-range value gives the nearest 64-bit bound.
   */
  function ParseInt64Lenient(s: string): (r: int)
    ensures MinInt64 <= r <= MaxInt64
    ensures SignedValue(s).None? ==> r == 0
    ensures Atoi(s).Some? ==> r == Atoi(s).value
    ensures SignedValue(s).Some? && SignedValue(s).value > MaxInt64 ==> r == MaxInt64
    ensures SignedValue(s).Some? && SignedValue(s).value < MinInt64 ==> r == MinInt64
  {
    match SignedValue(s)
    case None => 0
    case Some(v) => if v < MinInt64 then MinInt64 else if v > MaxInt64 then MaxInt64 else v
  }

  /** `strconv.ParseUint(s, 10, 64)`: digits only, below 2^64. */
  function ParseUint64(s: string): (r: Option<nat>)
    ensures r.Some? ==> r.value < TwoTo64 && |s| > 0 && AllDigits(s)
  {
    if |s| > 0 && AllDigits(s) && DigitsValue(s) < TwoTo64 then Some(DigitsValue(s)) else None
  }

  /** `ParseUint` reads back the decimal text of every 64-bit unsigned value. */
  lemma ParseUint64Itoa(n: nat)
    requires n < TwoTo64
    ensures ParseUint64(Itoa(n)) == Some(n)
  {
    DigitsValueOfNat(n);
  }
}

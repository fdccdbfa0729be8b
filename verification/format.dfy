/**
 * The readable formats of the `monitor` package: `formatBytes`, which
 * picks a binary unit for a byte count, and `formatDuration`, which shows
 * an uptime by its largest non-zero unit.
 */
module Format {
  import opened Strconv

  const Unit: nat := 1024

  /** The unit letters `formatBytes` indexes with its exponent. */
  const UnitLetters: string := "KMGTPE"

  function Pow1024(e: nat): (p: nat)
    ensures p >= 1
  {
    if e == 0 then 1 else Unit * Pow1024(e - 1)
  }

  /**
   * A formatted byte count: `"<n> B"` below 1024, otherwise the count
   * divided by `divisor` = 1024^(exp+1) with the unit letter at `exp` (the
   * `%.1f` rendering of the quotient is not modelled).
   */
  datatype ByteSize = Plain(text: string) | Scaled(bytes: nat, divisor: nat, exp: nat)

  /** How many more times the loop of `formatBytes` divides `n` by 1024. */
  function Exponent(n: nat): nat
  {
    if n < Unit then 0 else 1 + Exponent(n / Unit)
  }

  /** The exponent picks the power of 1024 at or below `n`, the next one being above it. */
  lemma {:induction false} ExponentBounds(n: nat)
    requires n >= 1
    ensures Pow1024(Exponent(n)) <= n < Pow1024(Exponent(n) + 1)
  {
    if n >= Unit {
      var m := n / Unit;
      ExponentBounds(m);
      var e := Exponent(m);
      assert Exponent(n) == e + 1;
      assert Unit * m <= n < Unit * (m + 1);
      assert Unit * Pow1024(e) <= Unit * m;
      assert Unit * (m + 1) <= Unit * Pow1024(e + 1);
    }
  }

  /** A count below 1024^k needs fewer than k further divisions. */
  lemma {:induction false} ExponentBelow(n: nat, k: nat)
    requires 1 <= k && n < Pow1024(k)
    ensures Exponent(n) < k
  {
    if n >= Unit {
      assert k >= 2;
      assert n / Unit < Pow1024(k - 1);
      ExponentBelow(n / Unit, k - 1);
    }
  }

  /** The result `formatBytes` computes, as a function. */
  function ByteSizeOf(bytes: nat): ByteSize
  {
    if bytes < Unit then Plain(Itoa(bytes) + " B")
    else
      var e := Exponent(bytes / Unit);
      Scaled(bytes, Pow1024(e + 1), e)
  }

  /**
   * Every 64-bit count at or above 1024 is shown with the largest power of
   * 1024 that does not exceed it, and its exponent is a valid index into
   * the unit letters.
   */
  lemma ByteSizeOfBounds(bytes: nat)
    requires Unit <= bytes < TwoTo64
    ensures var r := ByteSizeOf(bytes);
      r.Scaled? && r.divisor == Pow1024(r.exp + 1) && r.exp < |UnitLetters|
      && Pow1024(r.exp + 1) <= bytes < Pow1024(r.exp + 2)
  {
    var m := bytes / Unit;
    var e := Exponent(m);
    ExponentBounds(m);
    assert Unit * m <= bytes < Unit * (m + 1);
    assert Unit * Pow1024(e) <= Unit * m;
    assert Unit * (m + 1) <= Unit * Pow1024(e + 1);
    assert Pow1024(6) == 0x1000_0000_0000_0000;
    ExponentBelow(m, 6);
  }

  /**
   * `formatBytes`: below 1024 the plain count; otherwise the divisor is
   * multiplied by 1024 while the quotient is still at least 1024, and the
   * exponent counts the steps.
   */
  method FormatBytes(bytes: nat) returns (r: ByteSize)
    requires bytes < TwoTo64
    ensures r == ByteSizeOf(bytes)
    ensures r.Plain? <==> bytes < Unit
    ensures r.Plain? ==> r.text == Itoa(bytes) + " B"
    ensures r.Scaled? ==> r.bytes == bytes && r.divisor == Pow1024(r.exp + 1) && r.exp < |UnitLetters|
    ensures r.Scaled? ==> r.divisor <= bytes < r.divisor * Unit
  {
    if bytes < Unit {
      return Plain(Itoa(bytes) + " B");
    }
    ByteSizeOfBounds(bytes);
    var div: nat := Unit;
    var exp: nat := 0;
    var n: nat := bytes / Unit;
    while n >= Unit
      invariant exp + Exponent(n) == Exponent(bytes / Unit)
      invariant div == Pow1024(exp + 1)
      decreases n
    {
      div := div * Unit;
      exp := exp + 1;
      n := n / Unit;
    }
    r := Scaled(bytes, div, exp);
  }

  /** An uptime in whole seconds split as `formatDuration` splits it. */
  datatype DurationParts = DurationParts(days: nat, hours: nat, minutes: nat, seconds: nat)

  /** Whole hours over 24, whole hours modulo 24, whole minutes modulo 60, seconds modulo 60. */
  function PartsOf(secs: nat): (p: DurationParts)
    ensures p.hours < 24 && p.minutes < 60 && p.seconds < 60
    ensures p.days * 86400 + p.hours * 3600 + p.minutes * 60 + p.seconds == secs
  {
    PartsRecompose(secs);
    DurationParts((secs / 3600) / 24, (secs / 3600) % 24, (secs / 60) % 60, secs % 60)
  }

  /** The four fields put back together give the seconds they came from. */
  lemma PartsRecompose(secs: nat)
    ensures ((secs / 3600) / 24) * 86400 + ((secs / 3600) % 24) * 3600 + ((secs / 60) % 60) * 60 + secs % 60 == secs
  {
    var q, s := secs / 60, secs % 60;
    assert secs == 60 * q + s;
    var h, m := q / 60, q % 60;
    assert q == 60 * h + m;
    assert secs == 3600 * h + (60 * m + s);
    assert secs / 3600 == h;
    var d, hh := h / 24, h % 24;
    assert h == 24 * d + hh;
  }

  /**
   * `formatDuration` over whole seconds: a day or more shows days, hours
   * and minutes; an hour or more hours, minutes and seconds; a minute or
   * more minutes and seconds; less than a minute only seconds.
   */
  function FormatDuration(secs: nat): (r: string)
    ensures var p := PartsOf(secs);
      && (secs >= 86400 ==> r == Itoa(p.days) + "d " + Itoa(p.hours) + "h " + Itoa(p.minutes) + "m")
      && (3600 <= secs < 86400 ==> r == Itoa(p.hours) + "h " + Itoa(p.minutes) + "m " + Itoa(p.seconds) + "s")
      && (60 <= secs < 3600 ==> r == Itoa(p.minutes) + "m " + Itoa(p.seconds) + "s")
      && (secs < 60 ==> r == Itoa(secs) + "s")
  {
    var p := PartsOf(secs);
    if p.days > 0 then Itoa(p.days) + "d " + Itoa(p.hours) + "h " + Itoa(p.minutes) + "m"
    else if p.hours > 0 then Itoa(p.hours) + "h " + Itoa(p.minutes) + "m " + Itoa(p.seconds) + "s"
    else if p.minutes > 0 then Itoa(p.minutes) + "m " + Itoa(p.seconds) + "s"
    else Itoa(p.seconds) + "s"
  }
}

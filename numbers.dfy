/**
 * The integer handling behind MAX_BODY_SIZE_MB: Go's 64-bit `int`, strconv.Atoi
 * and the shift `maxBodySize << 20` that turns mebibytes into bytes.
 */
module Numbers {
  import opened Wrappers

  const TwoTo63: int := 0x8000_0000_0000_0000
  const TwoTo64: int := 0x1_0000_0000_0000_0000

  /** Go's `int` on a 64-bit platform. */
  newtype int64 = x: int | -0x8000_0000_0000_0000 <= x < 0x8000_0000_0000_0000

  predicate IsDigit(c: char) {
    '0' <= c <= '9'
  }

  predicate AllDigits(s: string) {
    forall i :: 0 <= i < |s| ==> IsDigit(s[i])
  }

  function DigitValue(c: char): (d: nat)
    requires IsDigit(c)
    ensures d < 10
  {
    c as int - '0' as int
  }

  function Digit(d: nat): (c: char)
    requires d < 10
    ensures IsDigit(c) && DigitValue(c) == d
  {
    (d + '0' as int) as char
  }

  /** The value of a string of decimal digits, most significant first. */
  function DigitsValue(s: string): nat
    requires AllDigits(s)
  {
    if s == [] then 0 else DigitsValue(s[..|s| - 1]) * 10 + DigitValue(s[|s| - 1])
  }

  /**
   * strconv.Atoi on a 64-bit platform: an optional '+' or '-' followed by at least
   * one decimal digit, whose value lies in the int64 range; anything else is an error.
   */
  function Atoi(s: string): Option<int64> {
    var signed := |s| > 0 && (s[0] == '-' || s[0] == '+');
    var digits := if signed then s[1..] else s;
    if digits == [] || !AllDigits(digits) then None
    else
      var magnitude: int := DigitsValue(digits);
      var v: int := if s[0] == '-' then -magnitude else magnitude;
      if -TwoTo63 <= v < TwoTo63 then Some(v as int64) else None
  }

  /** The shortest decimal spelling of n (strconv.Itoa for non-negative values). */
  function Decimal(n: nat): (s: string)
    ensures s != [] && AllDigits(s)
    ensures s[0] != '-' && s[0] != '+'
  {
    if n < 10 then [Digit(n)] else Decimal(n / 10) + [Digit(n % 10)]
  }

  /** strconv.Itoa. */
  function Format(i: int64): string {
    if i < 0 then "-" + Decimal(-(i as int)) else Decimal(i as int)
  }

  lemma {:induction false} DigitsValueDecimal(n: nat)
    ensures DigitsValue(Decimal(n)) == n
  {
    if n >= 10 {
      DigitsValueDecimal(n / 10);
      var s := Decimal(n);
      assert s[..|s| - 1] == Decimal(n / 10);
    }
  }

  /** Atoi reads back every value Itoa writes. */
  lemma AtoiFormat(i: int64)
    ensures Atoi(Format(i)) == Some(i)
  {
    var s := Format(i);
    if i < 0 {
      DigitsValueDecimal(-(i as int));
      assert s[1..] == Decimal(-(i as int));
    } else {
      DigitsValueDecimal(i as int);
    }
  }

  /** No digits, no value: the empty text, a lone sign and any text ending in a non-digit are errors. */
  lemma AtoiRejects(s: string)
    requires s == "" || !IsDigit(s[|s| - 1])
    ensures Atoi(s) == None
  {
    if s != [] && |s| > 1 {
      var digits := if s[0] == '-' || s[0] == '+' then s[1..] else s;
      assert digits[|digits| - 1] == s[|s| - 1];
    }
  }

  /** A non-digit anywhere after an optional leading sign is an error, so no space or other separator is skipped. */
  lemma AtoiNonDigit(s: string, j: nat)
    requires j < |s| && !IsDigit(s[j])
    requires j == 0 ==> s[0] != '-' && s[0] != '+'
    ensures Atoi(s) == None
  {
    if s[0] == '-' || s[0] == '+' {
      assert s[1..][j - 1] == s[j];
    }
  }

  /** A leading '+' changes nothing. */
  lemma AtoiPlus(d: string)
    requires d == [] || (d[0] != '-' && d[0] != '+')
    ensures Atoi("+" + d) == Atoi(d)
  {
    assert ("+" + d)[1..] == d;
  }

  lemma {:induction false} DigitsValueLeadingZero(d: string)
    requires AllDigits(d)
    ensures AllDigits("0" + d) && DigitsValue("0" + d) == DigitsValue(d)
  {
    if d != [] {
      var p := d[..|d| - 1];
      DigitsValueLeadingZero(p);
      assert ("0" + d)[..|d|] == "0" + p;
    }
  }

  /** Leading zeros are allowed and do not change the value. */
  lemma AtoiLeadingZero(d: string)
    requires d != [] && AllDigits(d)
    ensures Atoi("0" + d) == Atoi(d)
  {
    DigitsValueLeadingZero(d);
  }

  /** Values outside the int64 range are errors: from 2^63 up without a minus sign, below -2^63 with one. */
  lemma AtoiOutOfRange(n: nat)
    ensures n >= TwoTo63 ==> Atoi(Decimal(n)) == None && Atoi("+" + Decimal(n)) == None
    ensures n > TwoTo63 ==> Atoi("-" + Decimal(n)) == None
  {
    DigitsValueDecimal(n);
    assert ("+" + Decimal(n))[1..] == Decimal(n);
    assert ("-" + Decimal(n))[1..] == Decimal(n);
  }

  /** The smallest int64 has no positive counterpart: "9223372036854775808" is rejected, its negation accepted. */
  lemma AtoiEdge()
    ensures Atoi(Decimal(TwoTo63)) == None
    ensures Atoi("-" + Decimal(TwoTo63)) == Some(-0x8000_0000_0000_0000)
  {
    AtoiOutOfRange(TwoTo63);
    DigitsValueDecimal(TwoTo63);
    assert ("-" + Decimal(TwoTo63))[1..] == Decimal(TwoTo63);
  }

  /**
   * `x << 20` on a Go int: x * 2^20 wrapped into the signed 64-bit range, that is,
   * the one int64 congruent to it modulo 2^64.
   */
  function ShiftLeft20(x: int64): (r: int64)
    ensures (r as int - x as int * 0x10_0000) % TwoTo64 == 0
  {
    var m := (x as int * 0x10_0000) % TwoTo64;
    if m < TwoTo63 then m as int64 else (m - TwoTo64) as int64
  }

  /** Within 2^43 mebibytes either side of zero the shift is an exact multiplication. */
  lemma ShiftLeft20Exact(x: int64)
    requires -0x800_0000_0000 <= x < 0x800_0000_0000
    ensures ShiftLeft20(x) as int == x as int * 0x10_0000
  {
  }

  /**
   * Outside that range the product wraps: 2^43 mebibytes gives the most negative
   * int64, and one mebibyte below -2^43 gives a large positive number.
   */
  lemma ShiftLeft20Wraps()
    ensures ShiftLeft20(0x800_0000_0000) as int == -TwoTo63
    ensures ShiftLeft20(-0x800_0000_0001) as int == TwoTo63 - 0x10_0000
  {
  }
}

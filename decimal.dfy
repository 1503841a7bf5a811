/**
 * Decimal text of integers, as `std::to_string` writes it and `std::stoi`
 * reads it back (the string conversion clause of ISO/IEC 14882). `stoi`
 * parses like `strtol` in base 10 and then checks the `int` range: it skips
 * leading white space of the "C" locale, takes one optional sign and the
 * longest run of digits after it, and ignores whatever follows. No digit
 * raises `invalid_argument`; a value outside `int` raises `out_of_range`.
 */
module Decimal {
  import opened Basics

  /** Bounds of a 32-bit `int`. */
  const INT_MIN: int := -0x8000_0000
  const INT_MAX: int := 0x7fff_ffff

  /** Number of values of a 64-bit `size_t`. */
  const SIZE_T_MODULUS: int := 0x1_0000_0000_0000_0000

  /** The two exceptions `std::stoi` can throw. */
  datatype StoiError = InvalidArgument | OutOfRange

  predicate IsDigit(c: char) {
    '0' <= c <= '9'
  }

  predicate AllDigits(s: string) {
    forall i :: 0 <= i < |s| ==> IsDigit(s[i])
  }

  /** `isspace` in the "C" locale. */
  predicate IsSpace(c: char) {
    c == ' ' || c == '\t' || c == '\n' || c == '\U{B}' || c == '\U{C}' || c == '\r'
  }

  function DigitValue(c: char): (d: nat)
    requires IsDigit(c)
    ensures d < 10
  {
    c as int - '0' as int
  }

  function DigitChar(d: nat): (c: char)
    requires d < 10
    ensures IsDigit(c) && DigitValue(c) == d
  {
    ('0' as int + d) as char
  }

  function Pow10(k: nat): (p: nat)
    ensures p >= 1
  {
    if k == 0 then 1 else 10 * Pow10(k - 1)
  }

  lemma {:induction false} Pow10Monotone(i: nat, j: nat)
    requires i <= j
    ensures Pow10(i) <= Pow10(j)
  {
    if i < j {
      Pow10Monotone(i, j - 1);
    }
  }

  /** Digits of a non-negative integer, most significant first, without leading zeros. */
  function NatToString(n: nat): (s: string)
    ensures |s| >= 1 && AllDigits(s)
    ensures s[0] == '0' <==> n == 0
    decreases n
  {
    if n < 10 then [DigitChar(n)] else NatToString(n / 10) + [DigitChar(n % 10)]
  }

  /** `std::to_string` of a signed integer: a minus sign for negatives, then the digits. */
  function ToString(n: int): (s: string)
    ensures |s| >= 1 && (s[0] == '-' <==> n < 0)
    ensures n >= 0 ==> AllDigits(s)
    ensures n < 0 ==> |s| >= 2 && AllDigits(s[1..])
    ensures n >= 0 ==> s == NatToString(n)
    ensures n < 0 ==> s == "-" + NatToString(-n)
  {
    if n < 0 then
      var d := NatToString(-n);
      assert ("-" + d)[1..] == d;
      "-" + d
    else NatToString(n)
  }

  /** The value of a run of decimal digits, most significant first. */
  function DigitsValue(s: string): (v: nat)
    requires AllDigits(s)
    ensures v < Pow10(|s|)
    ensures |s| >= 1 && s[0] != '0' ==> v >= Pow10(|s| - 1)
  {
    if s == [] then 0 else DigitsValue(s[..|s| - 1]) * 10 + DigitValue(s[|s| - 1])
  }

  /** Length of the longest prefix of `s` made of digits. */
  function DigitRunLength(s: string): (k: nat)
    ensures k <= |s| && AllDigits(s[..k])
    ensures k < |s| ==> !IsDigit(s[k])
  {
    if s == [] || !IsDigit(s[0]) then 0 else 1 + DigitRunLength(s[1..])
  }

  /** Length of the longest prefix of `s` made of white space. */
  function SpaceRunLength(s: string): (k: nat)
    ensures k <= |s|
    ensures forall i :: 0 <= i < k ==> IsSpace(s[i])
    ensures k < |s| ==> !IsSpace(s[k])
  {
    if s == [] || !IsSpace(s[0]) then 0 else 1 + SpaceRunLength(s[1..])
  }

  /** What `stoi` reads after the leading white space: one optional sign, then the magnitude. */
  function Signed(s: string): (t: string)
    ensures |t| > 0 ==> !IsSpace(t[0])
  {
    s[SpaceRunLength(s)..]
  }

  /** What `stoi` reads as digits: `Signed(s)` without its sign, if it has one. */
  function Magnitude(s: string): (u: string)
  {
    var t := Signed(s);
    if |t| > 0 && (t[0] == '-' || t[0] == '+') then t[1..] else t
  }

  /** `std::stoi(s)` in base 10, with its two exceptions as errors. */
  function Stoi(s: string): (r: Result<int, StoiError>)
    ensures r.Ok? ==> INT_MIN <= r.value <= INT_MAX
    ensures r == Err(InvalidArgument) <==> DigitRunLength(Magnitude(s)) == 0
    ensures r.Ok? && r.value < 0 ==> Signed(s)[0] == '-'
  {
    var t := Signed(s);
    var u := Magnitude(s);
    var k := DigitRunLength(u);
    if k == 0 then Err(InvalidArgument)
    else
      var magnitude: int := DigitsValue(u[..k]);
      var v := if |t| > 0 && t[0] == '-' then -magnitude else magnitude;
      if INT_MIN <= v <= INT_MAX then Ok(v) else Err(OutOfRange)
  }

  /** Conversion of an `int` to `size_t`: negative values wrap modulo 2^64. */
  function ToSizeT(v: int): (n: nat)
    requires INT_MIN <= v <= INT_MAX
    ensures n < SIZE_T_MODULUS
    ensures n % SIZE_T_MODULUS == v % SIZE_T_MODULUS
    ensures v >= 0 ==> n == v
  {
    if v < 0 then v + SIZE_T_MODULUS else v
  }

  /** Reading the digits that `NatToString` wrote gives the number back. */
  lemma {:induction false} DigitsValueOfNatToString(n: nat)
    ensures DigitsValue(NatToString(n)) == n
  {
    if n >= 10 {
      var s := NatToString(n);
      assert s[..|s| - 1] == NatToString(n / 10);
      DigitsValueOfNatToString(n / 10);
    }
  }

  /** A digit run followed by a non-digit (or nothing) is read exactly up to its end. */
  lemma {:induction false} DigitRunOfDigitsThen(d: string, rest: string)
    requires AllDigits(d)
    requires rest == [] || !IsDigit(rest[0])
    ensures DigitRunLength(d + rest) == |d|
  {
    if d != [] {
      assert (d + rest)[1..] == d[1..] + rest;
      DigitRunOfDigitsThen(d[1..], rest);
    }
  }

  /** With or without a leading minus sign, `stoi` skips no white space before digits and reads past the sign. */
  lemma {:induction false} MagnitudeOfSignedDigits(negative: bool, u: string)
    requires |u| > 0 && IsDigit(u[0])
    ensures var s := if negative then "-" + u else u;
      SpaceRunLength(s) == 0 && Magnitude(s) == u && (s[0] == '-' <==> negative)
  {
    var s := if negative then "-" + u else u;
    assert !IsSpace(s[0]);
    assert s[0..] == s;
    if negative {
      assert s[1..] == u;
    }
  }

  /**
   * An optional minus sign, a run of digits and text that does not start
   * with a digit: `stoi` reads the signed value of the digits.
   */
  lemma {:induction false} StoiOfSignedDigits(negative: bool, d: string, rest: string)
    requires |d| > 0 && AllDigits(d)
    requires rest == [] || !IsDigit(rest[0])
    ensures negative ==>
      Stoi("-" + d + rest) == if -(DigitsValue(d) as int) >= INT_MIN then Ok(-(DigitsValue(d) as int)) else Err(OutOfRange)
    ensures !negative ==>
      Stoi(d + rest) == if DigitsValue(d) <= INT_MAX then Ok(DigitsValue(d)) else Err(OutOfRange)
  {
    var u := d + rest;
    assert u[0] == d[0];
    DigitRunOfDigitsThen(d, rest);
    assert u[..|d|] == d;
    if negative {
      assert "-" + d + rest == "-" + u;
      MagnitudeOfSignedDigits(true, u);
      StoiOfParts("-" + u, true, |d|);
    } else {
      MagnitudeOfSignedDigits(false, u);
      StoiOfParts(u, false, |d|);
    }
  }

  /** `stoi` read through its steps: the sign found, and the length of the digit run after it. */
  lemma {:induction false} StoiOfParts(s: string, negative: bool, k: nat)
    requires |Signed(s)| > 0 && (Signed(s)[0] == '-' <==> negative)
    requires 0 < k == DigitRunLength(Magnitude(s))
    ensures var m: int := DigitsValue(Magnitude(s)[..k]); var v := if negative then -m else m;
      Stoi(s) == if INT_MIN <= v <= INT_MAX then Ok(v) else Err(OutOfRange)
  {
  }

  /**
   * `stoi` undoes `to_string`: the decimal text of any `n`, followed by text
   * that does not start with a digit, parses back to `n` when `n` fits an
   * `int`, and raises `out_of_range` otherwise.
   */
  lemma {:induction false} StoiOfToString(n: int, rest: string)
    requires rest == [] || !IsDigit(rest[0])
    ensures Stoi(ToString(n) + rest) ==
              if INT_MIN <= n <= INT_MAX then Ok(n) else Err(OutOfRange)
  {
    var m := if n < 0 then -n else n;
    DigitsValueOfNatToString(m);
    StoiOfSignedDigits(n < 0, NatToString(m), rest);
  }

  /** Eleven or more digits without a leading zero are too many for an `int`. */
  lemma {:induction false} LongDigitsOutOfRange(p: string)
    requires |p| >= 11 && AllDigits(p) && p[0] != '0'
    ensures Stoi(p) == Err(OutOfRange)
  {
    MagnitudeOfSignedDigits(false, p);
    DigitRunOfDigitsThen(p, []);
    assert p + [] == p;
    assert p[..|p|] == p;
    Pow10Monotone(10, |p| - 1);
    assert DigitsValue(p) >= Pow10(10);
  }

  /** A non-negative number whose text has eleven or more digits does not fit an `int`. */
  lemma {:induction false} LongNatToStringExceedsInt(n: nat)
    requires |NatToString(n)| >= 11
    ensures n > INT_MAX
  {
    DigitsValueOfNatToString(n);
    Pow10Monotone(10, |NatToString(n)| - 1);
  }

  /**
   * A cut-off prefix of at least eleven digits of a non-negative number's
   * text is itself too large for an `int`.
   */
  lemma {:induction false} TruncatedNatToStringOutOfRange(n: nat, cap: nat)
    requires 11 <= cap < |NatToString(n)|
    ensures Stoi(NatToString(n)[..cap]) == Err(OutOfRange)
  {
    var s := NatToString(n);
    assert s[0] != '0';
    LongDigitsOutOfRange(s[..cap]);
  }
}

/** Go's strconv.Atoi on a 64-bit platform: an optional sign, then one or more decimal
    digits, whose value must fit in a signed 64-bit integer. */
module Strconv {
  import opened Wrappers

  const MaxInt64: int := 0x7FFF_FFFF_FFFF_FFFF
  const MinInt64: int := -0x8000_0000_0000_0000
  const MaxUint64: int := 0xFFFF_FFFF_FFFF_FFFF

  /** The two reasons a NumError carries: ErrSyntax and ErrRange. */
  datatype NumError = InvalidSyntax | OutOfRange

  /** Atoi's two results: the int (meaningful also with an error, see Atoi) and the error. */
  datatype Conversion = Conversion(value: int, err: Option<NumError>)

  predicate IsDigit(c: char) {
    '0' <= c <= '9'
  }

  function DigitValue(c: char): nat
    requires IsDigit(c)
  {
    c as int - '0' as int
  }

  predicate AllDigits(s: string) {
    forall i :: 0 <= i < |s| ==> IsDigit(s[i])
  }

  /** The decimal value of the digits `s` read after the value `acc`, left to right. */
  function Accumulate(s: string, acc: nat): nat
    requires AllDigits(s)
    decreases |s|
  {
    if s == [] then acc else Accumulate(s[1..], acc * 10 + DigitValue(s[0]))
  }

  predicate HasSign(s: string) {
    |s| > 0 && (s[0] == '+' || s[0] == '-')
  }

  /** The text after an optional leading sign. */
  function Unsigned(s: string): string {
    if HasSign(s) then s[1..] else s
  }

  /** A well-formed decimal integer: an optional sign and at least one digit. */
  predicate IsDecimal(s: string) {
    |Unsigned(s)| > 0 && AllDigits(Unsigned(s))
  }

  /** The mathematical value of a well-formed decimal integer. */
  function SignedValue(s: string): int
    requires IsDecimal(s)
  {
    if s[0] == '-' then 0 - Accumulate(Unsigned(s), 0) else Accumulate(Unsigned(s), 0)
  }

  /** The digit loop of ParseUint: a non-digit stops it with a syntax error, a value that
      no longer fits in 64 unsigned bits stops it with a range error, whichever comes first. */
  datatype Scan = Value(n: nat) | BadDigit | Overflow

  function ScanUint(s: string, n: nat): Scan
    requires n <= MaxUint64
    decreases |s|
  {
    if s == [] then Value(n)
    else if !IsDigit(s[0]) then BadDigit
    else if n * 10 + DigitValue(s[0]) > MaxUint64 then Overflow
    else ScanUint(s[1..], n * 10 + DigitValue(s[0]))
  }

  /** Accumulating more digits never lowers the value. */
  lemma {:induction false} AccumulateGrows(s: string, acc: nat)
    requires AllDigits(s)
    ensures Accumulate(s, acc) >= acc
    decreases |s|
  {
    if s != [] {
      AccumulateGrows(s[1..], acc * 10 + DigitValue(s[0]));
    }
  }

  /** The digit loop finds the decimal value when it fits, an overflow when the digits do
      not fit, and never a value when a non-digit is present. */
  lemma {:induction false} ScanUintMeetsValue(s: string, n: nat)
    requires n <= MaxUint64
    ensures AllDigits(s) && Accumulate(s, n) <= MaxUint64 ==> ScanUint(s, n) == Value(Accumulate(s, n))
    ensures AllDigits(s) && Accumulate(s, n) > MaxUint64 ==> ScanUint(s, n) == Overflow
    ensures !AllDigits(s) ==> !ScanUint(s, n).Value?
    decreases |s|
  {
    if s != [] {
      var m := n * 10 + (if IsDigit(s[0]) then DigitValue(s[0]) else 0);
      if IsDigit(s[0]) {
        if AllDigits(s) {
          AccumulateGrows(s[1..], m);
        }
        if m <= MaxUint64 {
          ScanUintMeetsValue(s[1..], m);
          if !AllDigits(s) {
            var i :| 0 <= i < |s| && !IsDigit(s[i]);
            assert !IsDigit(s[1..][i - 1]);
          }
        }
      }
    }
  }

  /** strconv.Atoi. On a syntax error the value is 0; on a range error it is the bound of
      int64 on the side of the sign, as ParseInt returns it. */
  function Atoi(s: string): (r: Conversion)
    ensures r.err.None? <==> IsDecimal(s) && MinInt64 <= SignedValue(s) <= MaxInt64
    ensures r.err.None? ==> r.value == SignedValue(s)
    ensures r.err == Some(InvalidSyntax) ==> r.value == 0 && !IsDecimal(s)
    ensures r.err == Some(OutOfRange) ==> |s| > 0 && r.value == (if s[0] == '-' then MinInt64 else MaxInt64)
    ensures MinInt64 <= r.value <= MaxInt64
    ensures r.err == Some(InvalidSyntax) <==> |Unsigned(s)| == 0 || ScanUint(Unsigned(s), 0) == BadDigit
  {
    if s == "" then Conversion(0, Some(InvalidSyntax))
    else
      var neg := s[0] == '-';
      var digits := if s[0] == '+' || s[0] == '-' then s[1..] else s;
      if digits == "" then Conversion(0, Some(InvalidSyntax))
      else
        ScanUintMeetsValue(digits, 0);
        match ScanUint(digits, 0)
        case BadDigit => Conversion(0, Some(InvalidSyntax))
        case Overflow => Conversion(if neg then MinInt64 else MaxInt64, Some(OutOfRange))
        case Value(u) =>
          if !neg && u > MaxInt64 then Conversion(MaxInt64, Some(OutOfRange))
          else if neg && u > MaxInt64 + 1 then Conversion(MinInt64, Some(OutOfRange))
          else Conversion(if neg then 0 - u else u, None)
  }

  /** Once the digits read so far overflow 64 unsigned bits, the loop stops with a range
      error whatever follows, a non-digit included. */
  lemma {:induction false} ScanOverflowsFirst(p: string, rest: string, n: nat)
    requires n <= MaxUint64 && AllDigits(p) && Accumulate(p, n) > MaxUint64
    ensures ScanUint(p + rest, n) == Overflow
    decreases |p|
  {
    var m := n * 10 + DigitValue(p[0]);
    assert (p + rest)[0] == p[0];
    if m <= MaxUint64 {
      assert (p + rest)[1..] == p[1..] + rest;
      ScanOverflowsFirst(p[1..], rest, m);
    }
  }

  /** Atoi reports the error the digit loop meets first: digits that overflow before a
      non-digit give a range error, with the bound on the side of the sign. */
  lemma AtoiErrorOrder(p: string, rest: string)
    requires |p| > 0 && AllDigits(p) && Accumulate(p, 0) > MaxUint64
    ensures Atoi(p + rest) == Conversion(MaxInt64, Some(OutOfRange))
    ensures Atoi("-" + p + rest) == Conversion(MinInt64, Some(OutOfRange))
  {
    ScanOverflowsFirst(p, rest, 0);
    var s := p + rest;
    assert s[0] == p[0];
    assert !HasSign(s);
    assert Unsigned(s) == s;
    var t := "-" + p + rest;
    assert t[0] == '-' && t[1..] == s;
    assert Unsigned(t) == s;
  }

  /** A non-digit met before any overflow is a syntax error, as for "12a". */
  lemma AtoiBadDigit()
    ensures Atoi("12a") == Conversion(0, Some(InvalidSyntax))
  {
  }
}

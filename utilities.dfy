/**
 * dfd/utilities.go: `idToID64` (decimal string to node handle) and `genID`
 * (random non-negative decimal), together with the parts of Go's strconv
 * they rest on: ParseInt(s, 10, 64) and FormatInt(x, 10).
 */
module Utilities {

  const MaxInt64: int := 0x7fff_ffff_ffff_ffff
  const MinInt64: int := -0x8000_0000_0000_0000
  const MaxUint64: int := 0xffff_ffff_ffff_ffff

  predicate InInt64(x: int) {
    MinInt64 <= x <= MaxInt64
  }

  predicate IsDigit(c: char) {
    '0' <= c <= '9'
  }

  function DigitValue(c: char): nat
    requires IsDigit(c)
  {
    (c as int) - ('0' as int)
  }

  function DigitChar(d: nat): (c: char)
    requires d < 10
    ensures IsDigit(c) && DigitValue(c) == d
  {
    (('0' as int) + d) as char
  }

  predicate AllDigits(s: string) {
    forall i :: 0 <= i < |s| ==> IsDigit(s[i])
  }

  /** The number a string of decimal digits denotes, most significant digit first. */
  function DigitsValue(s: string): nat
    requires AllDigits(s)
    decreases |s|
  {
    if s == [] then 0 else DigitsValue(s[..|s| - 1]) * 10 + DigitValue(s[|s| - 1])
  }

  /** Base-10 rendering of a natural number, without leading zeros. */
  function FormatNat(n: nat): (r: string)
    ensures r != [] && AllDigits(r)
    ensures DigitsValue(r) == n
    decreases n
  {
    if n < 10 then
      [DigitChar(n)]
    else
      var prefix := FormatNat(n / 10);
      var r := prefix + [DigitChar(n % 10)];
      assert r[..|r| - 1] == prefix;
      r
  }

  /** strconv.FormatInt(x, 10): a '-' sign, then the digits of |x|. */
  function FormatInt(x: int): string {
    if x < 0 then "-" + FormatNat(-x) else FormatNat(x)
  }

  /** The error part of a strconv parse: nil, ErrSyntax or ErrRange. */
  datatype NumError = NoError | ErrSyntax | ErrRange

  /**
   * The digit loop of strconv.ParseUint(s, 10, 64) from position i with
   * accumulator n. It runs left to right and returns at the first
   * overflow (the maximum value with a range error) or at the first
   * non-digit (zero with a syntax error), whichever comes first.
   */
  function ScanDecimal(s: string, i: nat, n: nat): (nat, NumError)
    requires i <= |s|
    decreases |s| - i
  {
    if i == |s| then (n, NoError)
    else if !IsDigit(s[i]) then (0, ErrSyntax)
    else if n >= MaxUint64 / 10 + 1 then (MaxUint64, ErrRange)
    else
      var n1 := n * 10 + DigitValue(s[i]);
      if n1 > MaxUint64 then (MaxUint64, ErrRange) else ScanDecimal(s, i + 1, n1)
  }

  /** strconv.ParseUint(s, 10, 64): no prefix and no underscores in base 10. */
  function ParseUint(s: string): (nat, NumError) {
    if s == [] then (0, ErrSyntax) else ScanDecimal(s, 0, 0)
  }

  /**
   * strconv.ParseInt(s, 10, 64): an optional sign, then ParseUint; a syntax
   * error yields 0, an out-of-range magnitude is clamped to the int64 bound.
   */
  function ParseInt(s: string): (r: (int, NumError))
    ensures InInt64(r.0)
    ensures r.1 == ErrSyntax ==> r.0 == 0
  {
    if s == [] then (0, ErrSyntax)
    else
      var neg := s[0] == '-';
      var body := if s[0] == '+' || s[0] == '-' then s[1..] else s;
      var (un, err) := ParseUint(body);
      var magnitude: int := un;
      if err == ErrSyntax then (0, ErrSyntax)
      else if !neg && un >= MaxInt64 + 1 then (MaxInt64, ErrRange)
      else if neg && un > MaxInt64 + 1 then (MinInt64, ErrRange)
      else if neg then (-magnitude, err)
      else (magnitude, err)
  }

  /** idToID64: the parse of an external id, its error discarded. */
  function IdToID64(id: string): (h: int)
    ensures InInt64(h)
  {
    ParseInt(id).0
  }

  /**
   * genID, with the random draw of crypto/rand made a parameter: `x` is the
   * value drawn from [0, MaxInt64).
   */
  function GenID(x: int): (r: string)
    requires 0 <= x < MaxInt64
    ensures r != [] && AllDigits(r)
    ensures IdToID64(r) == x && IdToID64(r) >= 0
  {
    ParseFormatInt(x);
    FormatInt(x)
  }

  lemma {:induction false} PrefixValueBounded(s: string, j: nat)
    requires AllDigits(s) && j <= |s|
    ensures AllDigits(s[..j]) && DigitsValue(s[..j]) <= DigitsValue(s)
    decreases |s| - j
  {
    if j < |s| {
      PrefixValueBounded(s, j + 1);
      assert s[..j + 1][..j] == s[..j];
    } else {
      assert s[..j] == s;
    }
  }

  /** The digit loop computes DigitsValue when the value fits in uint64. */
  lemma {:induction false} ScanDecimalDigits(s: string, i: nat)
    requires AllDigits(s) && i <= |s|
    requires DigitsValue(s) <= MaxUint64
    ensures AllDigits(s[..i])
    ensures ScanDecimal(s, i, DigitsValue(s[..i])) == (DigitsValue(s), NoError)
    decreases |s| - i
  {
    if i == |s| {
      assert s[..i] == s;
    } else {
      PrefixValueBounded(s, i + 1);
      assert s[..i + 1][..i] == s[..i];
      ScanDecimalDigits(s, i + 1);
    }
  }

  /** idToID64 inverts FormatInt on the whole int64 range, "0" and "-1" included. */
  lemma ParseFormatInt(x: int)
    requires InInt64(x)
    ensures ParseInt(FormatInt(x)) == (x, NoError)
    ensures IdToID64(FormatInt(x)) == x
  {
    var digits := FormatNat(if x < 0 then -x else x);
    assert digits[..0] == [];
    ScanDecimalDigits(digits, 0);
    if x < 0 {
      assert FormatInt(x)[1..] == digits;
    }
  }

  /** A string that starts with neither a digit nor a sign parses to 0. */
  lemma NonNumericIdIsZero(s: string)
    requires s != [] && !IsDigit(s[0]) && s[0] != '+' && s[0] != '-'
    ensures ParseInt(s) == (0, ErrSyntax)
    ensures IdToID64(s) == 0
  {
  }

  /** The full DOT identifier of a node is not a valid id: it maps to handle 0. */
  lemma PrefixedDotIdIsZero()
    ensures IdToID64("process_123") == 0
  {
    NonNumericIdIsZero("process_123");
  }
}

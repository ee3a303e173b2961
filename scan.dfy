/**
 * The `sscanf(frames, "%u-%u", &start, &end) == 2` test that reads the
 * `frames` configuration key, and decimal rendering of numbers for the
 * round trip that shows the parse reads back what a well-formed range says.
 *
 * A `%u` conversion skips leading white space, accepts one optional sign and
 * then the longest run of decimal digits (at least one). The digits are read
 * as a 64-bit `unsigned long` (a magnitude that does not fit saturates to its
 * largest value, a minus sign negates modulo 2^64) and the result is stored
 * into a 32-bit `unsigned int`, which keeps it modulo 2^32. The literal `-`
 * of the format must be the very next character; whatever follows the second
 * number is ignored.
 */
module Scan {
  import opened Wrappers

  /** The largest 64-bit `unsigned long`. */
  const ULONG_MAX: nat := 0xFFFF_FFFF_FFFF_FFFF
  /** Values of a 32-bit `unsigned int` are below this. */
  const UINT_MODULUS: nat := 0x1_0000_0000

  predicate IsDigit(c: char) {
    '0' <= c <= '9'
  }

  /** The characters C's `isspace` accepts in the "C" locale. */
  predicate IsSpace(c: char) {
    c == ' ' || c == '\t' || c == '\n' || c == '\r' || c == '\U{B}' || c == '\U{C}'
  }

  predicate AllDigits(s: string) {
    forall i :: 0 <= i < |s| ==> IsDigit(s[i])
  }

  function DigitValue(c: char): (d: nat)
    requires IsDigit(c)
    ensures d < 10
  {
    c as int - '0' as int
  }

  function DigitChar(d: nat): (c: char)
    requires d < 10
    ensures IsDigit(c) && DigitValue(c) == d
  {
    ('0' as int + d) as char
  }

  /** Length of the longest run of digits at the start of `s`. */
  function DigitRun(s: string): (n: nat)
    ensures n <= |s|
    ensures AllDigits(s[..n])
    ensures n < |s| ==> !IsDigit(s[n])
  {
    if |s| > 0 && IsDigit(s[0]) then
      var n := 1 + DigitRun(s[1..]);
      assert s[..n] == [s[0]] + s[1..][..n - 1];
      n
    else 0
  }

  /** The number a string of decimal digits denotes, most significant digit first. */
  function DigitsValue(d: string): nat
    requires AllDigits(d)
  {
    if d == [] then 0 else DigitsValue(d[..|d| - 1]) * 10 + DigitValue(d[|d| - 1])
  }

  /** Decimal rendering of `n` without leading zeros. */
  function Decimal(n: nat): (s: string)
    ensures |s| >= 1 && AllDigits(s)
  {
    if n < 10 then [DigitChar(n)] else Decimal(n / 10) + [DigitChar(n % 10)]
  }

  /** The white space a conversion skips. */
  function SkipSpace(s: string): (r: string)
    ensures |r| <= |s| && r == s[|s| - |r|..]
    ensures r == [] || !IsSpace(r[0])
  {
    if |s| > 0 && IsSpace(s[0]) then SkipSpace(s[1..]) else s
  }

  /** A suffix of a suffix of `s` is a suffix of `s`. */
  lemma SuffixOfSuffix(s: string, t: string, k: nat)
    requires |t| <= |s| && t == s[|s| - |t|..]
    requires k <= |t|
    ensures t[k..] == s[|s| - |t| + k..]
  {
  }

  /** What a magnitude read under an optional minus sign becomes in an `unsigned int`. */
  function UnsignedOf(negative: bool, magnitude: nat): (r: nat)
    ensures r < UINT_MODULUS
    ensures !negative && magnitude < UINT_MODULUS ==> r == magnitude
    ensures negative && 0 < magnitude < UINT_MODULUS ==> r == UINT_MODULUS - magnitude
    ensures magnitude > ULONG_MAX ==> r == UINT_MODULUS - 1
    ensures magnitude <= ULONG_MAX && !negative ==> (r - magnitude) % UINT_MODULUS == 0
    ensures magnitude <= ULONG_MAX && negative ==> (r + magnitude) % UINT_MODULUS == 0
  {
    if magnitude > ULONG_MAX then UINT_MODULUS - 1
    else if negative then (UINT_MODULUS - magnitude % UINT_MODULUS) % UINT_MODULUS
    else magnitude % UINT_MODULUS
  }

  datatype Scanned = Scanned(value: nat, rest: string)

  /** The digits `%u` converts once white space and sign are skipped; None when there is none. */
  function ScanMagnitude(u: string, negative: bool): (r: Option<Scanned>)
    ensures r.Some? ==> r.value.value < UINT_MODULUS
    ensures r.Some? ==> |r.value.rest| < |u| && r.value.rest == u[|u| - |r.value.rest|..]
  {
    var n := DigitRun(u);
    if n == 0 then None
    else Some(Scanned(UnsignedOf(negative, DigitsValue(u[..n])), u[n..]))
  }

  /** One `%u` conversion: None when no digit follows the white space and sign. */
  function ScanUnsigned(s: string): (r: Option<Scanned>)
    ensures r.Some? ==> r.value.value < UINT_MODULUS && |r.value.rest| < |s|
  {
    var t := SkipSpace(s);
    var signed := |t| > 0 && (t[0] == '+' || t[0] == '-');
    ScanMagnitude(if signed then t[1..] else t, signed && t[0] == '-')
  }

  /** What a conversion leaves unread is the end of its input. */
  lemma ScanUnsignedSuffix(s: string)
    requires ScanUnsigned(s).Some?
    ensures ScanUnsigned(s).value.rest == s[|s| - |ScanUnsigned(s).value.rest|..]
  {
    var t := SkipSpace(s);
    if |t| > 0 && (t[0] == '+' || t[0] == '-') {
      SuffixOfSuffix(s, t, 1);
      MagnitudeSuffix(s, t[1..], t[0] == '-');
    } else {
      MagnitudeSuffix(s, t, false);
    }
  }

  lemma MagnitudeSuffix(s: string, u: string, negative: bool)
    requires |u| <= |s| && u == s[|s| - |u|..]
    requires ScanMagnitude(u, negative).Some?
    ensures var rest := ScanMagnitude(u, negative).value.rest; rest == s[|s| - |rest|..]
  {
    var rest := ScanMagnitude(u, negative).value.rest;
    SuffixOfSuffix(s, u, |u| - |rest|);
  }

  /**
   * The pair `sscanf(s, "%u-%u", ...)` stores when it returns 2, or None
   * when it converts fewer than two numbers.
   */
  function ParseFrames(s: string): (r: Option<(nat, nat)>)
    ensures r.Some? ==> r.value.0 < UINT_MODULUS && r.value.1 < UINT_MODULUS
    ensures r.Some? ==> exists i :: 0 < i < |s| && s[i] == '-'
  {
    match ScanUnsigned(s)
    case None => None
    case Some(first) =>
      if |first.rest| > 0 && first.rest[0] == '-' then
        match ScanUnsigned(first.rest[1..])
        case None => None
        case Some(second) =>
          ScanUnsignedSuffix(s);
          assert s[|s| - |first.rest|] == '-';
          Some((first.value, second.value))
      else None
  }

  lemma {:induction false} DecimalValue(n: nat)
    ensures DigitsValue(Decimal(n)) == n
  {
    if n >= 10 {
      DecimalValue(n / 10);
      var s := Decimal(n);
      assert s[..|s| - 1] == Decimal(n / 10);
    }
  }

  lemma {:induction false} DigitRunOf(d: string, rest: string)
    requires AllDigits(d)
    requires rest == [] || !IsDigit(rest[0])
    ensures DigitRun(d + rest) == |d|
  {
    if d != [] {
      assert (d + rest)[1..] == d[1..] + rest;
      DigitRunOf(d[1..], rest);
    } else {
      assert d + rest == rest;
    }
  }

  /** Scanning a rendered number followed by a non-digit gives back the number and what follows. */
  lemma {:induction false} ScanDecimal(n: nat, rest: string)
    requires n < UINT_MODULUS
    requires rest == [] || !IsDigit(rest[0])
    ensures ScanUnsigned(Decimal(n) + rest) == Some(Scanned(n, rest))
  {
    var d := Decimal(n);
    var s := d + rest;
    assert s[0] == d[0];
    assert !IsSpace(s[0]);
    assert SkipSpace(s) == s;
    assert !(s[0] == '+' || s[0] == '-');
    DigitRunOf(d, rest);
    assert DigitRun(s) == |d|;
    assert s[..|d|] == d;
    assert s[|d|..] == rest;
    DecimalValue(n);
    assert DigitsValue(s[..|d|]) == n;
  }

  /** ParseFrames accepts two conversions joined by the literal `-`. */
  lemma ParseFramesOfScans(s: string, first: nat, second: nat, between: string, trailing: string)
    requires ScanUnsigned(s) == Some(Scanned(first, "-" + between))
    requires ScanUnsigned(between) == Some(Scanned(second, trailing))
    ensures ParseFrames(s) == Some((first, second))
  {
    assert ("-" + between)[1..] == between;
  }

  /**
   * A range written as "<start>-<end>" (any trailing text that does not
   * begin with a digit is ignored) reads back as exactly that pair.
   */
  lemma {:induction false} ParseFramesOfDecimal(start: nat, end: nat, trailing: string)
    requires start < UINT_MODULUS && end < UINT_MODULUS
    requires trailing == [] || !IsDigit(trailing[0])
    ensures ParseFrames(Decimal(start) + "-" + Decimal(end) + trailing) == Some((start, end))
  {
    var between := Decimal(end) + trailing;
    assert Decimal(start) + "-" + Decimal(end) + trailing == Decimal(start) + ("-" + between);
    ScanDecimal(start, "-" + between);
    ScanDecimal(end, trailing);
    ParseFramesOfScans(Decimal(start) + ("-" + between), start, end, between, trailing);
  }

  /** A `frames` value without any digit never yields a range. */
  lemma {:induction false} ParseFramesNeedsDigits(s: string)
    requires forall i :: 0 <= i < |s| ==> !IsDigit(s[i])
    ensures ParseFrames(s) == None
  {
    var t := SkipSpace(s);
    var k := if |t| > 0 && (t[0] == '+' || t[0] == '-') then 1 else 0;
    var u := if k == 1 then t[1..] else t;
    assert u == t[k..];
    SuffixOfSuffix(s, t, k);
    assert |u| > 0 ==> u[0] == s[|s| - |t| + k];
    assert DigitRun(u) == 0;
    assert ScanUnsigned(s) == None;
  }
}

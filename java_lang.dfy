/**
 * The parts of java.lang that the rate limiter leans on: the ranges of `int` and `long`,
 * the narrowing cast `(int)`, integer division (which truncates toward zero),
 * `Long.toString` and `Character.isWhitespace` / `StringUtils.isBlank`.
 */
module JavaLang {
  import opened Wrappers

  const TWO_32: int := 0x1_0000_0000
  const INT_MIN: int := -0x8000_0000
  const INT_MAX: int := 0x7fff_ffff
  const LONG_MIN: int := -0x8000_0000_0000_0000
  const LONG_MAX: int := 0x7fff_ffff_ffff_ffff

  /** Java `int` and `long` values. */
  type int32 = x: int | INT_MIN <= x <= INT_MAX
  type int64 = x: int | LONG_MIN <= x <= LONG_MAX

  /** The narrowing cast `(int) x`: keep the low 32 bits, read them as two's complement. */
  /** Equal in 32-bit two's-complement arithmetic. */
  predicate Congruent32(a: int, b: int) {
    (a - b) % TWO_32 == 0
  }

  /** A multiple of 2^32 is congruent to 0. */
  lemma MultipleIsCongruent32(a: int, b: int, q: int)
    requires a - b == TWO_32 * q
    ensures Congruent32(a, b)
  {
  }

  /** Values that are congruent differ by a multiple of 2^32. */
  lemma Congruent32Multiple(a: int, b: int) returns (q: int)
    requires Congruent32(a, b)
    ensures a - b == TWO_32 * q
  {
    q := (a - b) / TWO_32;
  }

  /** One step `31 * h + y` of a Java hash keeps values congruent. */
  lemma Congruent32Step(r: int, x: int, y: int)
    requires Congruent32(r, x)
    ensures Congruent32(31 * r + y, 31 * x + y)
  {
    var q := Congruent32Multiple(r, x);
    MultipleIsCongruent32(31 * r + y, 31 * x + y, 31 * q);
  }

  lemma Congruent32Trans(a: int, b: int, c: int)
    requires Congruent32(a, b) && Congruent32(b, c)
    ensures Congruent32(a, c)
  {
    var p := Congruent32Multiple(a, b);
    var q := Congruent32Multiple(b, c);
    MultipleIsCongruent32(a, c, p + q);
  }

  function ToInt32(x: int): (r: int32)
    ensures (r - x) % TWO_32 == 0
    ensures INT_MIN <= x <= INT_MAX ==> r == x
  {
    var low := x % TWO_32;
    if low <= INT_MAX then low else low - TWO_32
  }

  /** Java's `a / b` for a positive divisor: the quotient is truncated toward zero. */
  function JavaDiv(a: int, b: int): (q: int)
    requires b > 0
    ensures 0 <= a ==> 0 <= q && q * b <= a < (q + 1) * b
    ensures a < 0 ==> q <= 0 && (q - 1) * b < a <= q * b
  {
    if a >= 0 then a / b else -((-a) / b)
  }

  // ----------------------------------------------------------------------------
  // Long.toString: optional '-' and the decimal digits, without leading zeros.

  predicate IsDigit(c: char) { '0' <= c <= '9' }

  function DigitChar(d: int): char
    requires 0 <= d < 10
  {
    ['0', '1', '2', '3', '4', '5', '6', '7', '8', '9'][d]
  }

  function DigitValue(c: char): int
    requires IsDigit(c)
  {
    c as int - '0' as int
  }

  /** The decimal digits of `n`, most significant first. */
  function Digits(n: nat): (s: string)
    ensures |s| >= 1
    ensures forall i :: 0 <= i < |s| ==> IsDigit(s[i])
    ensures n == 0 <==> s == "0"
    ensures n >= 10 ==> s[0] != '0'
  {
    if n < 10 then [DigitChar(n)] else Digits(n / 10) + [DigitChar(n % 10)]
  }

  /** Reads a string of decimal digits back as a number: the inverse of `Digits`. */
  function ParseDigits(s: string): nat
    requires forall i :: 0 <= i < |s| ==> IsDigit(s[i])
  {
    if s == [] then 0 else 10 * ParseDigits(s[..|s| - 1]) + DigitValue(s[|s| - 1])
  }

  lemma {:induction false} ParseDigitsOfDigits(n: nat)
    ensures ParseDigits(Digits(n)) == n
  {
    if n >= 10 {
      var s := Digits(n);
      assert s[..|s| - 1] == Digits(n / 10);
      ParseDigitsOfDigits(n / 10);
    }
  }

  /** `Long.toString(n)`, the text `StringBuilder.append(long)` appends. */
  function LongToString(n: int): (s: string)
    ensures |s| >= 1 && '_' !in s
    ensures n >= 0 <==> IsDigit(s[0])
  {
    if n < 0 then "-" + Digits(-n) else Digits(n)
  }

  /** A string `Long.toString` can print: digits, optionally after a '-'. */
  predicate IsDecimal(s: string) {
    |s| >= 1 && (s[0] == '-' ==> |s| >= 2)
    && forall i :: (if s[0] == '-' then 1 else 0) <= i < |s| ==> IsDigit(s[i])
  }

  /** `Long.parseLong` on a decimal string. */
  function ParseLong(s: string): int
    requires IsDecimal(s)
  {
    if s[0] == '-' then 0 - ParseDigits(s[1..]) else ParseDigits(s)
  }

  /** `Long.parseLong(Long.toString(n)) == n`. */
  lemma LongToStringRoundTrip(n: int)
    ensures IsDecimal(LongToString(n)) && ParseLong(LongToString(n)) == n
  {
    var s := LongToString(n);
    if n < 0 {
      assert s[1..] == Digits(-n);
      ParseDigitsOfDigits(-n);
    } else {
      ParseDigitsOfDigits(n);
    }
  }

  /** `Long.toString` is one-to-one: different numbers never print the same. */
  lemma LongToStringInjective(a: int, b: int)
    requires LongToString(a) == LongToString(b)
    ensures a == b
  {
    LongToStringRoundTrip(a);
    LongToStringRoundTrip(b);
  }

  // ----------------------------------------------------------------------------
  // Character.isWhitespace and StringUtils.isBlank.

  /**
   * `Character.isWhitespace`: a Unicode space, line or paragraph separator other than the
   * no-break spaces U+00A0, U+2007 and U+202F, or one of the controls U+0009-U+000D, U+001C-U+001F.
   */
  predicate IsWhitespace(c: char) {
    var u := c as int;
    (0x09 <= u <= 0x0D) || (0x1C <= u <= 0x20) || u == 0x1680
    || (0x2000 <= u <= 0x2006) || (0x2008 <= u <= 0x200A)
    || u == 0x2028 || u == 0x2029 || u == 0x205F || u == 0x3000
  }

  /** `StringUtils.isBlank`: null, empty, or whitespace only. */
  predicate IsBlank(s: Option<string>): (b: bool)
    ensures s == Some([]) ==> b
    ensures s.Some? && (exists i :: 0 <= i < |s.value| && !IsWhitespace(s.value[i])) ==> !b
    ensures s.None? ==> b
  {
    s.None? || forall i :: 0 <= i < |s.value| ==> IsWhitespace(s.value[i])
  }

  /** Null, "" and whitespace are blank; the text `null` and a padded word are not. */
  lemma IsBlankExamples()
    ensures IsBlank(None) && IsBlank(Some("")) && IsBlank(Some(" \t\n"))
    ensures !IsBlank(Some("null")) && !IsBlank(Some(" a "))
  {
    assert !IsWhitespace("null"[0]);
    assert !IsWhitespace(" a "[1]);
  }
}

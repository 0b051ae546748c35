/**
 * Decimal integers as Go reads and writes them: strconv.ParseInt(s, 10, 64)
 * (and strconv.Atoi, which is the same on a 64-bit platform) and the `%d`
 * verb of fmt.
 */
module Numbers {
  import opened Wrappers

  const Int64Min: int := -0x8000_0000_0000_0000
  const Int64Max: int := 0x7FFF_FFFF_FFFF_FFFF

  predicate IsDigit(c: char) {
    '0' <= c <= '9'
  }

  predicate AllDigits(s: string) {
    forall i :: 0 <= i < |s| ==> IsDigit(s[i])
  }

  function DigitValue(c: char): (d: nat)
    requires IsDigit(c)
    ensures d < 10
  {
    c as int - '0' as int
  }

  function DigitChar(d: nat): (c: char)
    requires d < 10
    ensures IsDigit(c) && DigitValue(c) == d
  {
    ('0' as int + d) as char
  }

  /** The value of a string of decimal digits, most significant first. */
  function DigitsValue(s: string): nat
    requires AllDigits(s)
    decreases |s|
  {
    if |s| == 0 then 0 else DigitsValue(s[..|s| - 1]) * 10 + DigitValue(s[|s| - 1])
  }

  /** The digits of a natural number, without leading zeros. */
  function Digits(n: nat): (s: string)
    ensures |s| >= 1 && AllDigits(s)
    ensures |s| > 1 ==> s[0] != '0'
    decreases n
  {
    if n < 10 then [DigitChar(n)] else Digits(n / 10) + [DigitChar(n % 10)]
  }

  /** `fmt.Sprintf("%d", n)`: an optional minus sign and the digits of |n|. */
  function FormatInt(n: int): (s: string)
    ensures |s| >= 1
    ensures n >= 0 ==> AllDigits(s)
    ensures n < 0 ==> s[0] == '-' && AllDigits(s[1..])
  {
    if n < 0 then "-" + Digits(-n) else Digits(n)
  }

  /** The text after an optional leading sign. */
  function Unsigned(s: string): string {
    if |s| > 0 && (s[0] == '-' || s[0] == '+') then s[1..] else s
  }

  /** The syntax ParseInt accepts in base 10: an optional sign, then one or more ASCII digits. */
  predicate IsDecimal(s: string) {
    |Unsigned(s)| > 0 && AllDigits(Unsigned(s))
  }

  /** The mathematical value of a decimal string, before any range check. */
  function DecimalValue(s: string): int
    requires IsDecimal(s)
  {
    var magnitude: int := DigitsValue(Unsigned(s));
    if s[0] == '-' then -magnitude else magnitude
  }

  /**
   * strconv.ParseInt(s, 10, 64): Some(value) for a decimal string whose
   * value fits in an int64, None for every other string (bad syntax or out
   * of range, where Go returns an error).
   */
  function ParseInt(s: string): (r: Option<int>)
    ensures r.Some? <==> IsDecimal(s) && Int64Min <= DecimalValue(s) <= Int64Max
    ensures r.Some? ==> r.value == DecimalValue(s)
  {
    if IsDecimal(s) && Int64Min <= DecimalValue(s) <= Int64Max then Some(DecimalValue(s)) else None
  }

  /** strconv.Atoi on a 64-bit platform, where int is int64: the same as ParseInt(s, 10, 64). */
  function Atoi(s: string): Option<int> {
    ParseInt(s)
  }

  /** Reading back the digits of n gives n. */
  lemma {:induction false} DigitsValueOfDigits(n: nat)
    ensures DigitsValue(Digits(n)) == n
    decreases n
  {
    var s := Digits(n);
    if n >= 10 {
      DigitsValueOfDigits(n / 10);
      assert s[..|s| - 1] == Digits(n / 10);
    }
  }

  /** Reading back what `%d` wrote gives the number, for every integer. */
  lemma DecimalValueOfFormat(n: int)
    ensures IsDecimal(FormatInt(n)) && DecimalValue(FormatInt(n)) == n
  {
    var s := FormatInt(n);
    if n < 0 {
      assert Unsigned(s) == Digits(-n);
      DigitsValueOfDigits(-n);
    } else {
      assert Unsigned(s) == Digits(n);
      DigitsValueOfDigits(n);
    }
  }

  /** ParseInt inverts FormatInt on the whole int64 range. */
  lemma ParseFormatRoundTrip(n: int)
    requires Int64Min <= n <= Int64Max
    ensures ParseInt(FormatInt(n)) == Some(n)
  {
    DecimalValueOfFormat(n);
  }

  /** Atoi reads back every int64 that `%d` wrote. */
  lemma AtoiFormatRoundTrip(n: int)
    requires Int64Min <= n <= Int64Max
    ensures Atoi(FormatInt(n)) == Some(n)
  {
    ParseFormatRoundTrip(n);
  }

  /** Atoi accepts a leading '+' before the digits of a non-negative int64. */
  lemma AtoiPlusSign(n: int)
    requires 0 <= n <= Int64Max
    ensures Atoi("+" + FormatInt(n)) == Some(n)
  {
    DecimalValueOfFormat(n);
    assert Unsigned("+" + FormatInt(n)) == FormatInt(n) == Unsigned(FormatInt(n));
  }

  /** A well-formed number outside the int64 range is an error, not a wrapped value. */
  lemma AtoiRejectsOutOfRange(n: int)
    requires n < Int64Min || Int64Max < n
    ensures Atoi(FormatInt(n)) == None
  {
    DecimalValueOfFormat(n);
  }

  /** Distinct integers are written differently. */
  lemma FormatIntInjective(a: int, b: int)
    requires FormatInt(a) == FormatInt(b)
    ensures a == b
  {
    DecimalValueOfFormat(a);
    DecimalValueOfFormat(b);
  }

  /** What `%d` writes never contains a space, a comma or a slash. */
  lemma FormatIntPlain(n: int)
    ensures ' ' !in FormatInt(n) && ',' !in FormatInt(n) && '/' !in FormatInt(n)
  {
    var s := FormatInt(n);
    if n < 0 {
      assert s == [s[0]] + s[1..];
    }
  }
}

/**
 * The few pieces of `java.lang` the schema generator relies on: the width of
 * `int`, `Integer.toString` and `String.equalsIgnoreCase`.
 */
module JavaLang {

  /** A Java `int`: a 32-bit two's complement integer. */
  newtype int32 = x: int | -0x8000_0000 <= x < 0x8000_0000

  predicate IsDigit(c: char) {
    '0' <= c <= '9'
  }

  predicate AllDigits(s: string) {
    forall i :: 0 <= i < |s| ==> IsDigit(s[i])
  }

  function DigitChar(d: nat): (c: char)
    requires d < 10
    ensures IsDigit(c)
  {
    ('0' as int + d) as char
  }

  function DigitValue(c: char): (d: nat)
    requires IsDigit(c)
    ensures d < 10 && DigitChar(d) == c
  {
    c as int - '0' as int
  }

  /** The decimal digits of `n`, most significant first, without leading zeros. */
  function Digits(n: nat): (s: string)
    ensures |s| >= 1 && AllDigits(s)
    ensures n > 0 ==> s[0] != '0'
    ensures n == 0 ==> s == "0"
  {
    if n < 10 then [DigitChar(n)] else Digits(n / 10) + [DigitChar(n % 10)]
  }

  /** `Integer.toString(int)`: an optional minus sign followed by the digits of the magnitude. */
  function IntToString(n: int32): (s: string)
    ensures IsDecimalLiteral(s)
    ensures s[0] == '-' <==> n < 0
  {
    if n < 0 then "-" + Digits(-(n as int)) else Digits(n as int)
  }

  /** The shape of a decimal integer literal: `-`? followed by one or more digits. */
  predicate IsDecimalLiteral(s: string) {
    |s| >= 1 &&
    if s[0] == '-' then |s| >= 2 && AllDigits(s[1..]) else AllDigits(s)
  }

  /** The value of a string of digits, read left to right. */
  function DigitsValue(s: string): nat
    requires AllDigits(s)
  {
    if s == [] then 0 else DigitsValue(s[..|s| - 1]) * 10 + DigitValue(s[|s| - 1])
  }

  /** The integer a decimal literal denotes; the reading against which `IntToString` is checked. */
  function ParseDecimal(s: string): int
    requires IsDecimalLiteral(s)
  {
    if s[0] == '-' then -(DigitsValue(s[1..]) as int) else DigitsValue(s)
  }

  lemma {:induction false} DigitsRoundTrip(n: nat)
    ensures DigitsValue(Digits(n)) == n
  {
    if n >= 10 {
      var s := Digits(n);
      assert s[..|s| - 1] == Digits(n / 10);
      DigitsRoundTrip(n / 10);
    }
  }

  /** `Integer.toString` writes the number itself: reading its output back gives `n`. */
  lemma IntToStringRoundTrip(n: int32)
    ensures ParseDecimal(IntToString(n)) == n as int
  {
    var s := IntToString(n);
    if n < 0 {
      assert s[1..] == Digits(-(n as int));
      DigitsRoundTrip(-(n as int));
    } else {
      DigitsRoundTrip(n as int);
    }
  }

  /** Distinct codes give distinct strings. */
  lemma IntToStringInjective(m: int32, n: int32)
    requires IntToString(m) == IntToString(n)
    ensures m == n
  {
    IntToStringRoundTrip(m);
    IntToStringRoundTrip(n);
  }

  /**
   * The case folding `String.equalsIgnoreCase` applies, character by character,
   * when one side consists of ASCII capital letters: two characters match when
   * their upper cases agree or the lower cases of their upper cases agree. Besides
   * the ASCII lower-case letters, four characters fold onto an ASCII capital that
   * way: dotless i (U+0131) and capital I with dot (U+0130) onto `I`, long s
   * (U+017F) onto `S`, and the Kelvin sign (U+212A) onto `K`.
   */
  function FoldCase(c: char): char {
    if 'a' <= c <= 'z' then (c as int - 32) as char
    else if c == '\U{0131}' || c == '\U{0130}' then 'I'
    else if c == '\U{017F}' then 'S'
    else if c == '\U{212A}' then 'K'
    else c
  }

  /**
   * `s.equalsIgnoreCase(keyword)` for a keyword made of ASCII capital letters
   * (for other keywords this is coarser than Java's comparison).
   */
  predicate EqualsIgnoreCase(s: string, keyword: string) {
    |s| == |keyword| && forall i :: 0 <= i < |s| ==> FoldCase(s[i]) == FoldCase(keyword[i])
  }
}

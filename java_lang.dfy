/**
 * The pieces of the Java platform that the request code leans on: 32-bit `int`
 * arithmetic, `Integer.parseInt`, `Integer.toString`, `String.toUpperCase`, and
 * Spring's `StringUtils.hasText`.
 */
module JavaLang {
  import opened Wrappers

  const MIN_INT: int := -0x8000_0000
  const MAX_INT: int := 0x7fff_ffff

  /** A Java `int`. */
  type Int32 = x: int | MIN_INT <= x <= MAX_INT

  /** Two's-complement wrap-around of an exact result into an `int`, as Java's `+` and `-` do. */
  function Wrap(x: int): (r: Int32)
    ensures (r - x) % 0x1_0000_0000 == 0
    ensures MIN_INT <= x <= MAX_INT ==> r == x
  {
    (x - MIN_INT) % 0x1_0000_0000 + MIN_INT
  }

  /** `Math.min` on two ints. */
  function Min(a: Int32, b: Int32): (r: Int32)
    ensures r <= a && r <= b
    ensures r == a || r == b
  {
    if a <= b then a else b
  }

  // ---------------------------------------------------------------------------
  // Decimal digits

  predicate IsDigit(c: char) {
    '0' <= c <= '9'
  }

  predicate IsDigits(s: string) {
    forall i | 0 <= i < |s| :: IsDigit(s[i])
  }

  function DigitChar(d: nat): (c: char)
    requires d < 10
  {
    ('0' as int + d) as char
  }

  /** The number a string of decimal digits denotes, most significant digit first. */
  function DigitsValue(s: string): nat
    requires IsDigits(s)
  {
    if s == [] then 0
    else 10 * DigitsValue(s[..|s| - 1]) + (s[|s| - 1] as int - '0' as int)
  }

  /**
   * `Integer.parseInt(s)` (radix 10): an optional leading '-' or '+', then at least
   * one digit, denoting a value that fits in an `int`. `None` stands for the
   * `NumberFormatException` thrown for everything else, the empty string included.
   */
  function ParseInt(s: string): (r: Option<Int32>)
    ensures r.Some? ==> |s| > 0 && IsDigit(s[|s| - 1])
  {
    var signed := |s| > 0 && (s[0] == '-' || s[0] == '+');
    var digits := if signed then s[1..] else s;
    if digits == [] || !IsDigits(digits) then None
    else
      var magnitude := DigitsValue(digits);
      var v: int := if s[0] == '-' then -(magnitude as int) else magnitude;
      if MIN_INT <= v <= MAX_INT then Some(v) else None
  }

  /** Decimal rendering of a natural number, without leading zeros. */
  function NatToString(n: nat): (s: string)
    ensures s != [] && IsDigits(s)
    ensures DigitsValue(s) == n
    ensures s[0] == '0' ==> s == "0"
  {
    if n < 10 then [DigitChar(n)]
    else
      var prefix := NatToString(n / 10);
      var s := prefix + [DigitChar(n % 10)];
      assert s[..|s| - 1] == prefix;
      s
  }

  /** `Integer.toString(n)`: decimal, with a leading '-' when negative. */
  function IntToString(n: int): (s: string)
    ensures s != []
  {
    if n < 0 then "-" + NatToString(-n) else NatToString(n)
  }

  /** Every `int` survives being written out and parsed back. */
  lemma ParseIntToString(n: Int32)
    ensures ParseInt(IntToString(n)) == Some(n)
  {
    var s := IntToString(n);
    if n < 0 {
      var m: nat := -(n as int);
      var digits := NatToString(m);
      assert s[1..] == digits;
    } else {
      assert IsDigit(s[0]);
    }
  }

  // ---------------------------------------------------------------------------
  // Whitespace and StringUtils.hasText

  /**
   * `Character.isWhitespace`: the ASCII control whitespace, the file/group/record/unit
   * separators, and the Unicode space, line and paragraph separators other than the
   * non-breaking ones (U+00A0, U+2007, U+202F).
   */
  predicate IsWhitespace(c: char) {
    c == ' ' || ('\t' <= c <= '\r') || ('\U{1C}' <= c <= '\U{1F}')
    || c == '\U{1680}' || c == '\U{180E}'
    || ('\U{2000}' <= c <= '\U{2006}') || ('\U{2008}' <= c <= '\U{200A}')
    || c == '\U{2028}' || c == '\U{2029}' || c == '\U{205F}' || c == '\U{3000}'
  }

  /** `StringUtils.hasText`: some character is not whitespace. */
  predicate HasText(s: string) {
    exists i | 0 <= i < |s| :: !IsWhitespace(s[i])
  }

  /** A string `Integer.parseInt` accepts always has text, so a `hasText` guard in front of it changes nothing. */
  lemma ParsedHasText(s: string)
    requires ParseInt(s).Some?
    ensures HasText(s)
  {
    assert !IsWhitespace(s[|s| - 1]);
  }

  // ---------------------------------------------------------------------------
  // Upper-casing

  /** Upper-casing of one character, for the ASCII letters. */
  function UpperChar(c: char): char {
    if 'a' <= c <= 'z' then (c as int - 32) as char else c
  }

  /** `String.toUpperCase`, restricted to ASCII letters. */
  function ToUpperCase(s: string): (r: string)
    ensures |r| == |s|
  {
    seq(|s|, i requires 0 <= i < |s| => UpperChar(s[i]))
  }

  /** Upper-casing yields "ASC" exactly for the case variants of "asc". */
  lemma UpperIsAsc(s: string)
    ensures ToUpperCase(s) == "ASC" <==>
      |s| == 3 && (s[0] == 'a' || s[0] == 'A') && (s[1] == 's' || s[1] == 'S') && (s[2] == 'c' || s[2] == 'C')
  {
    if ToUpperCase(s) == "ASC" {
      assert ToUpperCase(s)[0] == 'A' && ToUpperCase(s)[1] == 'S' && ToUpperCase(s)[2] == 'C';
    }
  }

  /** Upper-casing yields "DESC" exactly for the case variants of "desc". */
  lemma UpperIsDesc(s: string)
    ensures ToUpperCase(s) == "DESC" <==>
      |s| == 4 && (s[0] == 'd' || s[0] == 'D') && (s[1] == 'e' || s[1] == 'E')
      && (s[2] == 's' || s[2] == 'S') && (s[3] == 'c' || s[3] == 'C')
  {
    if ToUpperCase(s) == "DESC" {
      assert ToUpperCase(s)[0] == 'D' && ToUpperCase(s)[1] == 'E';
      assert ToUpperCase(s)[2] == 'S' && ToUpperCase(s)[3] == 'C';
    }
  }
}

/** The `java.lang.String` and `java.lang.Long` operations the transcription
    layer relies on: lower-casing, suffix tests, case-insensitive equality,
    blank tests and decimal rendering of a `long`.

    Case mapping is the ASCII one. For what the layer does with it (suffix
    tests against ".mp3", ".mp4", ".wav", ".flac", ".m4a" and a comparison
    against "COMPLETED") that is exact. The characters outside the ASCII
    letters that Java maps onto one are: the Kelvin sign (lower-cases to 'k'),
    the dotted capital I (lower-cases to 'i' plus a combining dot), the
    dotless small i (upper-cases to 'I', which `equalsIgnoreCase` also
    compares) and the long s (upper-cases to 'S'). Under a Turkish default
    locale `toLowerCase` also maps 'I' to the dotless small i. All of these
    concern only the letters i, k and s, and none of them occurs in those
    six words. */
module JavaStrings {
  import opened Values

  /** `Character.isWhitespace` on one code point: the ASCII controls tab to
      carriage return, the separators U+001C to U+001F, and the Unicode space,
      line and paragraph separators except the non-breaking ones
      (U+00A0, U+2007, U+202F). */
  function IsWhitespace(c: char): (w: bool)
    ensures c < '\U{0080}' ==> (w <==> c in " \t\n\U{000B}\U{000C}\r\U{001C}\U{001D}\U{001E}\U{001F}")
    ensures c == '\U{00A0}' || c == '\U{2007}' || c == '\U{202F}' ==> !w
    ensures w ==> c <= '\U{3000}'
  {
    || c == ' '
    || ('\t' <= c <= '\r')
    || ('\U{001C}' <= c <= '\U{001F}')
    || c == '\U{1680}'
    || ('\U{2000}' <= c <= '\U{2006}')
    || ('\U{2008}' <= c <= '\U{200A}')
    || c == '\U{2028}' || c == '\U{2029}' || c == '\U{205F}' || c == '\U{3000}'
  }

  /** The position of the first character that is not white space, or the
      length when there is none: `String.isBlank` scans for it from the
      front. */
  function FirstNonWhitespace(s: string): (k: nat)
    ensures k <= |s|
    ensures forall i :: 0 <= i < k ==> IsWhitespace(s[i])
    ensures k < |s| ==> !IsWhitespace(s[k])
  {
    if s == [] || !IsWhitespace(s[0]) then 0 else 1 + FirstNonWhitespace(s[1..])
  }

  /** `String.isBlank`: the scan for a character that is not white space
      reaches the end. That is, the string is empty or white space only. */
  function IsBlank(s: string): (b: bool)
    ensures b <==> forall i :: 0 <= i < |s| ==> IsWhitespace(s[i])
  {
    FirstNonWhitespace(s) == |s|
  }

  predicate IsUpper(c: char)
  {
    'A' <= c <= 'Z'
  }

  function LowerChar(c: char): char
  {
    if IsUpper(c) then (c as int + ('a' as int - 'A' as int)) as char else c
  }

  /** `String.toLowerCase`, one character at a time. */
  function ToLower(s: string): (r: string)
    ensures |r| == |s|
    ensures forall i :: 0 <= i < |s| ==> r[i] == LowerChar(s[i])
    ensures forall i :: 0 <= i < |r| ==> !IsUpper(r[i])
  {
    if s == [] then [] else [LowerChar(s[0])] + ToLower(s[1..])
  }

  /** Lower-casing an already lower-cased string changes nothing. */
  lemma ToLowerIdempotent(s: string)
    ensures ToLower(ToLower(s)) == ToLower(s)
  {
  }

  /** Lower-casing works piecewise on a concatenation. */
  lemma ToLowerAppend(a: string, b: string)
    ensures ToLower(a + b) == ToLower(a) + ToLower(b)
  {
  }

  /** `String.endsWith`. */
  function EndsWith(s: string, suffix: string): (b: bool)
    ensures b <==> exists p :: s == p + suffix
  {
    if |suffix| <= |s| && s[|s| - |suffix|..] == suffix then
      assert s == s[..|s| - |suffix|] + suffix;
      true
    else
      false
  }

  /** `literal.equalsIgnoreCase(other)`: false when `other` is null, otherwise
      equal lengths and the same letters up to case, position by position. */
  function EqualsIgnoreCase(literal: string, other: Option<string>): (b: bool)
    ensures other.None? ==> !b
    ensures other == Some(literal) ==> b
    ensures b ==> |other.value| == |literal|
  {
    && other.Some?
    && |literal| == |other.value|
    && forall i :: 0 <= i < |literal| ==> LowerChar(literal[i]) == LowerChar(other.value[i])
  }

  /** Case-insensitive equality is equality of the lower-cased forms. */
  lemma EqualsIgnoreCaseIsLowerEquality(a: string, b: string)
    ensures EqualsIgnoreCase(a, Some(b)) <==> ToLower(a) == ToLower(b)
  {
  }

  predicate IsDigit(c: char)
  {
    '0' <= c <= '9'
  }

  predicate AllDigits(s: string)
  {
    forall i :: 0 <= i < |s| ==> IsDigit(s[i])
  }

  function DigitChar(d: nat): char
    requires d < 10
  {
    ('0' as int + d) as char
  }

  function DigitValue(c: char): nat
    requires IsDigit(c)
  {
    c as int - '0' as int
  }

  /** The decimal digits of a natural number, most significant first. */
  function NatToString(n: nat): (r: string)
    ensures 1 <= |r|
    ensures AllDigits(r)
    ensures |r| > 1 ==> r[0] != '0'
    decreases n
  {
    if n < 10 then [DigitChar(n)] else NatToString(n / 10) + [DigitChar(n % 10)]
  }

  /** `Long.toString`: a minus sign for negative values, then the digits of
      the magnitude. */
  function LongToString(n: Long): (r: string)
    ensures 1 <= |r|
    ensures r[0] == '-' <==> n < 0
    ensures n < 0 ==> AllDigits(r[1..]) && 2 <= |r|
    ensures 0 <= n ==> AllDigits(r)
  {
    if n < 0 then "-" + NatToString(-(n as int)) else NatToString(n)
  }

  /** The value of a string of decimal digits (the empty string is zero). */
  function DigitsValue(s: string): nat
    requires AllDigits(s)
  {
    if s == [] then 0 else DigitsValue(s[..|s| - 1]) * 10 + DigitValue(s[|s| - 1])
  }

  /** Reads the decimal form `LongToString` writes: an optional minus sign
      followed by at least one digit. */
  function ParseDecimal(s: string): Option<int>
  {
    if 1 <= |s| && AllDigits(s) then Some(DigitsValue(s))
    else if 2 <= |s| && s[0] == '-' && AllDigits(s[1..]) then Some(-(DigitsValue(s[1..]) as int))
    else None
  }

  /** Reading back the digits of a natural number gives the number. */
  lemma {:induction false} NatToStringRoundTrip(n: nat)
    ensures DigitsValue(NatToString(n)) == n
    decreases n
  {
    if n >= 10 {
      var high := NatToString(n / 10);
      var s := high + [DigitChar(n % 10)];
      assert s[..|s| - 1] == high;
      NatToStringRoundTrip(n / 10);
    }
  }

  /** `ParseDecimal` inverts `LongToString`. */
  lemma LongToStringRoundTrip(n: Long)
    ensures ParseDecimal(LongToString(n)) == Some(n)
  {
    if n < 0 {
      var r := LongToString(n);
      assert r[1..] == NatToString(-(n as int));
      NatToStringRoundTrip(-(n as int));
    } else {
      NatToStringRoundTrip(n);
    }
  }
}

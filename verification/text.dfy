/** Character classes and string helpers with Python's meaning. */
module Text {

  predicate IsAsciiDigit(c: char) { '0' <= c <= '9' }

  /** The regular-expression class `[1-9]`. */
  predicate IsNonZeroDigit(c: char) { '1' <= c <= '9' }

  /** The regular-expression class `[0-9A-Fa-f]`. */
  predicate IsHexDigit(c: char) { '0' <= c <= '9' || 'A' <= c <= 'F' || 'a' <= c <= 'f' }

  /** The regular-expression class `[A-HJ-NP-Z]`: capital letters of the FAA registration alphabet. */
  predicate IsRegistrationLetter(c: char) { 'A' <= c <= 'H' || 'J' <= c <= 'N' || 'P' <= c <= 'Z' }

  /** The characters Python's `str.isspace` (and so `str.strip()` without arguments) treats as
      whitespace, fixed at the Unicode database current Python releases ship. */
  predicate IsPythonSpace(c: char) {
    || '\t' <= c <= '\r'
    || '\U{1C}' <= c <= '\U{20}'
    || c == '\U{85}' || c == '\U{A0}' || c == '\U{1680}'
    || '\U{2000}' <= c <= '\U{200A}'
    || c == '\U{2028}' || c == '\U{2029}' || c == '\U{202F}' || c == '\U{205F}' || c == '\U{3000}'
  }

  /** `not s.strip()`: the string is empty or made of whitespace only. */
  predicate IsBlank(s: string) {
    forall i | 0 <= i < |s| :: IsPythonSpace(s[i])
  }

  predicate StartsWith(s: string, prefix: string) {
    |prefix| <= |s| && s[..|prefix|] == prefix
  }

  predicate OccursAt(needle: string, haystack: string, i: int) {
    0 <= i && i + |needle| <= |haystack| && haystack[i..i + |needle|] == needle
  }

  /** Python's `needle in haystack` on two strings. */
  predicate IsSubstring(needle: string, haystack: string) {
    exists i | 0 <= i <= |haystack| - |needle| :: OccursAt(needle, haystack, i)
  }

  lemma PrefixOfConcat(prefix: string, rest: string)
    ensures StartsWith(prefix + rest, prefix)
  {
    assert (prefix + rest)[..|prefix|] == prefix;
  }

  /** A prefix of a string is a prefix of every extension of it. */
  lemma PrefixPersists(s: string, prefix: string, rest: string)
    requires StartsWith(s, prefix)
    ensures StartsWith(s + rest, prefix)
  {
    assert (s + rest)[..|prefix|] == s[..|prefix|];
  }

  /** Two strings that start with different characters never start with a common prefix. */
  lemma DifferentLeadsDiffer(a: string, b: string, x: string, y: string)
    requires |a| > 0 && |b| > 0 && a[0] != b[0]
    ensures a + x != b + y
  {
    assert (a + x)[0] == a[0];
    assert (b + y)[0] == b[0];
  }

  /** A string whose first character differs from the prefix's never starts with it. */
  lemma FirstCharDecidesPrefix(s: string, prefix: string)
    requires |s| > 0 && |prefix| > 0 && s[0] != prefix[0]
    ensures !StartsWith(s, prefix)
  {
    if |prefix| <= |s| {
      assert s[..|prefix|][0] == s[0];
    }
  }

  function DigitChar(d: int): (c: char)
    requires 0 <= d < 10
    ensures IsAsciiDigit(c) && c as int - '0' as int == d
  {
    (d + '0' as int) as char
  }

  function DigitValue(c: char): int
    requires IsAsciiDigit(c)
  {
    c as int - '0' as int
  }

  /** The value of a string of decimal digits. */
  function DecimalValue(s: string): nat
    requires forall i | 0 <= i < |s| :: IsAsciiDigit(s[i])
  {
    if |s| == 0 then 0 else DecimalValue(s[..|s| - 1]) * 10 + DigitValue(s[|s| - 1])
  }

  /** Python's `str(n)` for a natural number: shortest decimal digits. */
  function NatText(n: nat): (s: string)
    ensures |s| >= 1
    ensures forall i | 0 <= i < |s| :: IsAsciiDigit(s[i])
    ensures s[0] == '0' <==> n == 0
    decreases n
  {
    if n < 10 then [DigitChar(n)] else NatText(n / 10) + [DigitChar(n % 10)]
  }

  /** Reading back what `NatText` writes gives the number again. */
  lemma {:induction false} NatTextRoundTrip(n: nat)
    ensures DecimalValue(NatText(n)) == n
    decreases n
  {
    var s := NatText(n);
    if n >= 10 {
      NatTextRoundTrip(n / 10);
      assert s[..|s| - 1] == NatText(n / 10);
    }
  }

  /** A single digit's text is that digit alone. */
  lemma IntTextOfDigit(d: int)
    requires 0 <= d < 10
    ensures IntText(d) == [DigitChar(d)]
  {
  }

  /** Python's `str(i)` (and so the `{i}` of an f-string) for any integer. */
  function IntText(i: int): (s: string)
    ensures |s| >= 1
    ensures i < 0 <==> s[0] == '-'
    ensures i >= 0 ==> (forall k | 0 <= k < |s| :: IsAsciiDigit(s[k])) && DecimalValue(s) == i
    ensures i >= 0 ==> (s[0] == '0' <==> i == 0)
    ensures i < 0 ==> |s| >= 2 && s[1] != '0'
    ensures i < 0 ==> (forall k | 1 <= k < |s| :: IsAsciiDigit(s[k])) && DecimalValue(s[1..]) == -i
  {
    if i < 0 then
      NatTextRoundTrip(-i);
      assert ("-" + NatText(-i))[1..] == NatText(-i);
      "-" + NatText(-i)
    else
      NatTextRoundTrip(i);
      NatText(i)
  }
}

/** Character-level helpers shared by the modelled screens and server actions:
    decimal digits, the whitespace set JavaScript's `trim` removes, ASCII
    lower-casing and decimal rendering of integers (`String(n)`, template
    literals). */
module Text {

  predicate IsDigit(c: char) {
    '0' <= c <= '9'
  }

  predicate AllDigits(s: string) {
    forall i :: 0 <= i < |s| ==> IsDigit(s[i])
  }

  predicate StartsWith(s: string, prefix: string) {
    |prefix| <= |s| && s[..|prefix|] == prefix
  }

  /** The characters ECMAScript's `String.prototype.trim` removes: WhiteSpace
      (tab, vertical tab, form feed, BOM and the space separators) and
      LineTerminator. */
  predicate IsJsWhitespace(c: char) {
    var n := c as int;
    n == 0x09 || n == 0x0A || n == 0x0B || n == 0x0C || n == 0x0D || n == 0x20
    || n == 0xA0 || n == 0x1680 || (0x2000 <= n <= 0x200A) || n == 0x2028
    || n == 0x2029 || n == 0x202F || n == 0x205F || n == 0x3000 || n == 0xFEFF
  }

  predicate AllWhitespace(s: string) {
    forall i :: 0 <= i < |s| ==> IsJsWhitespace(s[i])
  }

  /** `s.trimStart()`: the suffix of `s` left after dropping leading whitespace. */
  function TrimStart(s: string): (r: string)
    ensures |r| <= |s| && r == s[|s| - |r|..]
    ensures AllWhitespace(s[..|s| - |r|])
    ensures r == [] || !IsJsWhitespace(r[0])
  {
    if |s| > 0 && IsJsWhitespace(s[0]) then
      var q := s[1..];
      var r := TrimStart(q);
      assert s[..|s| - |r|] == [s[0]] + q[..|q| - |r|];
      WhitespaceCons(s[0], q[..|q| - |r|]);
      r
    else s
  }

  lemma WhitespaceCons(c: char, a: string)
    requires IsJsWhitespace(c) && AllWhitespace(a)
    ensures AllWhitespace([c] + a)
  {
  }

  lemma WhitespaceSnoc(a: string, c: char)
    requires AllWhitespace(a) && IsJsWhitespace(c)
    ensures AllWhitespace(a + [c])
  {
  }

  /** `s.trimEnd()`: the prefix of `s` left after dropping trailing whitespace. */
  function TrimEnd(s: string): (r: string)
    ensures |r| <= |s| && r == s[..|r|]
    ensures AllWhitespace(s[|r|..])
    ensures r == [] || !IsJsWhitespace(r[|r| - 1])
  {
    if |s| > 0 && IsJsWhitespace(s[|s| - 1]) then
      var p := s[..|s| - 1];
      var r := TrimEnd(p);
      assert s[|r|..] == p[|r|..] + [s[|s| - 1]];
      WhitespaceSnoc(p[|r|..], s[|s| - 1]);
      r
    else s
  }

  /** `s.trim()`. */
  function Trim(s: string): string {
    TrimEnd(TrimStart(s))
  }

  /** A string trims to the empty string exactly when it is all whitespace
      (the "blank input" test of the screens). */
  lemma {:induction false} TrimEmptyIffBlank(s: string)
    ensures Trim(s) == "" <==> AllWhitespace(s)
  {
    var t := TrimStart(s);
    if !AllWhitespace(s) && t != [] {
      assert !IsJsWhitespace(t[0]);
    }
  }

  /** ASCII lower-casing, the part of `toLowerCase` this model covers. */
  function LowerChar(c: char): char {
    if 'A' <= c <= 'Z' then (c as int + 32) as char else c
  }

  function Lower(s: string): (r: string)
    ensures |r| == |s|
    ensures forall i :: 0 <= i < |s| ==> r[i] == LowerChar(s[i])
  {
    seq(|s|, i requires 0 <= i < |s| => LowerChar(s[i]))
  }

  /** The two characters are equal, or the same ASCII letter in upper and
      lower case. */
  predicate SameLetterIgnoringCase(x: char, y: char) {
    || x == y
    || ('A' <= x <= 'Z' && y as int == x as int + 32)
    || ('A' <= y <= 'Z' && x as int == y as int + 32)
  }

  lemma LowerCharEqual(x: char, y: char)
    ensures LowerChar(x) == LowerChar(y) <==> SameLetterIgnoringCase(x, y)
  {
  }

  /** Two strings lower-case to the same string exactly when they have the
      same length and differ at most in the case of ASCII letters. */
  lemma LowerEqualIffSameUpToCase(a: string, b: string)
    ensures Lower(a) == Lower(b) <==>
      |a| == |b| && forall i :: 0 <= i < |a| ==> SameLetterIgnoringCase(a[i], b[i])
  {
    forall i | 0 <= i < |a| && i < |b| {
      LowerCharEqual(a[i], b[i]);
    }
    if Lower(a) == Lower(b) {
      assert forall i :: 0 <= i < |a| ==> Lower(a)[i] == Lower(b)[i];
    }
  }

  function DigitChar(d: nat): (c: char)
    requires d < 10
    ensures IsDigit(c)
  {
    ('0' as int + d) as char
  }

  /** Decimal rendering of a natural number, as `String(n)` writes it:
      digits only, no leading zero except for zero itself. */
  function NatToString(n: nat): (r: string)
    ensures |r| >= 1 && AllDigits(r)
    ensures r[0] == '0' ==> n == 0
    decreases n
  {
    if n < 10 then [DigitChar(n)] else NatToString(n / 10) + [DigitChar(n % 10)]
  }

  /** Decimal rendering of an integer, with a leading '-' when negative. */
  function IntToString(i: int): (r: string)
    ensures |r| >= 1
    ensures i >= 0 ==> AllDigits(r)
    ensures i < 0 ==> r[0] == '-' && AllDigits(r[1..])
  {
    if i < 0 then "-" + NatToString(-i) else NatToString(i)
  }
}

/**
 * String operations of the JavaScript runtime that the client relies on:
 * `String.prototype.trim`, the `length` property (counted in UTF-16 code
 * units) and the case-insensitive prefix tests of its regular expressions.
 */
module Text {

  /** The WhiteSpace and LineTerminator code points of ECMAScript, which `trim` removes. */
  predicate IsWhitespace(c: char)
  {
    || c == '\t' || c == '\n' || c == '\U{B}' || c == '\U{C}' || c == '\r'
    || c == ' ' || c == '\U{A0}' || c == '\U{1680}'
    || ('\U{2000}' <= c <= '\U{200A}')
    || c == '\U{2028}' || c == '\U{2029}' || c == '\U{202F}' || c == '\U{205F}'
    || c == '\U{3000}' || c == '\U{FEFF}'
  }

  /** The index of the first non-whitespace character of `s` (`|s|` when there is none). */
  function ContentStart(s: string): (k: nat)
    ensures k <= |s|
    ensures forall i :: 0 <= i < k ==> IsWhitespace(s[i])
    ensures k < |s| ==> !IsWhitespace(s[k])
  {
    if s != [] && IsWhitespace(s[0]) then 1 + ContentStart(s[1..]) else 0
  }

  /** The index just past the last non-whitespace character of `s` (0 when there is none). */
  function ContentEnd(s: string): (e: nat)
    ensures e <= |s|
    ensures forall i :: e <= i < |s| ==> IsWhitespace(s[i])
    ensures 0 < e ==> !IsWhitespace(s[e - 1])
  {
    if s != [] && IsWhitespace(s[|s| - 1]) then ContentEnd(s[..|s| - 1]) else |s|
  }

  /**
   * `s.trim()`: the slice of `s` left once the whitespace on both ends is
   * removed. Everything outside the slice is whitespace, the slice neither
   * starts nor ends with whitespace, and it is empty exactly when `s` is all
   * whitespace.
   */
  function Trim(s: string): (r: string)
    ensures var k := ContentStart(s);
      && k + |r| <= |s| && r == s[k..k + |r|]
      && (forall i :: 0 <= i < k ==> IsWhitespace(s[i]))
      && (forall i :: k + |r| <= i < |s| ==> IsWhitespace(s[i]))
    ensures r != [] ==> !IsWhitespace(r[0]) && !IsWhitespace(r[|r| - 1])
    ensures r == [] <==> forall i :: 0 <= i < |s| ==> IsWhitespace(s[i])
  {
    var k, e := ContentStart(s), ContentEnd(s);
    if k < e then s[k..e] else []
  }

  /** A string that neither starts nor ends with whitespace is its own trim. */
  lemma TrimOfTrimmed(s: string)
    requires s != [] ==> !IsWhitespace(s[0]) && !IsWhitespace(s[|s| - 1])
    ensures Trim(s) == s
  {
  }

  /** Trimming twice is trimming once. */
  lemma TrimIdempotent(s: string)
    ensures Trim(Trim(s)) == Trim(s)
  {
    TrimOfTrimmed(Trim(s));
  }

  /** The ASCII lower-case of a character; every other character maps to itself. */
  function AsciiLower(c: char): char
  {
    if 'A' <= c <= 'Z' then (c as int + 32) as char else c
  }

  /** The value of `s.length`: astral characters occupy two UTF-16 code units. */
  function Utf16Length(s: string): (n: nat)
    ensures |s| <= n <= 2 * |s|
  {
    if s == [] then 0 else (if s[0] as int > 0xFFFF then 2 else 1) + Utf16Length(s[1..])
  }
}

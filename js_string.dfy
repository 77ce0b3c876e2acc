/**
 * `String.prototype.trim` as the chat widget uses it: leading and trailing
 * white space and line terminators are removed, nothing else changes.
 */
module JsString {

  /**
   * ECMAScript WhiteSpace and LineTerminator code points: TAB, VT, FF,
   * SPACE, NBSP, ZWNBSP, the other space separators (category Zs), LF, CR,
   * LINE SEPARATOR and PARAGRAPH SEPARATOR.
   */
  predicate IsWhitespace(c: char)
  {
    c == '\t' || c == '\n' || c == '\U{000B}' || c == '\U{000C}' || c == '\r' || c == ' ' ||
    c == '\U{00A0}' || c == '\U{1680}' || ('\U{2000}' <= c <= '\U{200A}') ||
    c == '\U{2028}' || c == '\U{2029}' || c == '\U{202F}' || c == '\U{205F}' ||
    c == '\U{3000}' || c == '\U{FEFF}'
  }

  /** Non-empty, and neither starts nor ends with white space. */
  predicate IsTrimmed(s: seq<char>)
  {
    s != [] && !IsWhitespace(s[0]) && !IsWhitespace(s[|s| - 1])
  }

  /** Length of the white space run that starts `s`. */
  function LeadingWhitespace(s: seq<char>): (n: nat)
    ensures n <= |s|
    ensures forall k :: 0 <= k < n ==> IsWhitespace(s[k])
    ensures n < |s| ==> !IsWhitespace(s[n])
  {
    if s != [] && IsWhitespace(s[0]) then 1 + LeadingWhitespace(s[1..]) else 0
  }

  /** Where the white space run that ends `s` begins. */
  function TextEnd(s: seq<char>): (n: nat)
    ensures n <= |s|
    ensures forall k :: n <= k < |s| ==> IsWhitespace(s[k])
    ensures 0 < n ==> !IsWhitespace(s[n - 1])
  {
    if s != [] && IsWhitespace(s[|s| - 1]) then TextEnd(s[..|s| - 1]) else |s|
  }

  /** `r` is `s` with `i` characters dropped in front and only white space dropped on either side. */
  predicate DropsOnlyWhitespace(s: seq<char>, i: int, r: seq<char>)
  {
    0 <= i && i + |r| <= |s| && r == s[i..i + |r|] &&
    (forall k :: 0 <= k < i ==> IsWhitespace(s[k])) &&
    (forall k :: i + |r| <= k < |s| ==> IsWhitespace(s[k]))
  }

  /**
   * `s.trim()`: a contiguous part of `s`, everything dropped on either side
   * is white space, and a non-empty result is trimmed.
   */
  function Trim(s: seq<char>): (r: seq<char>)
    ensures exists i :: DropsOnlyWhitespace(s, i, r)
    ensures r != [] ==> IsTrimmed(r)
  {
    var i := LeadingWhitespace(s);
    var j := if i == |s| then |s| else TextEnd(s);
    assert DropsOnlyWhitespace(s, i, s[i..j]);
    s[i..j]
  }

  /** The trimmed input is empty exactly when the input is white space only (or empty). */
  lemma TrimEmptyIff(s: seq<char>)
    ensures Trim(s) == [] <==> forall k :: 0 <= k < |s| ==> IsWhitespace(s[k])
  {
  }
}

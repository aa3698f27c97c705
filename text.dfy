/** `String.prototype.trim` over text content: strips ECMAScript white space
    and line terminators from both ends. */
module Text {

  /** The ECMAScript WhiteSpace and LineTerminator code points (ECMA-262,
      sections 12.2 and 12.3), which `trim` removes. */
  predicate IsWhitespace(c: char)
  {
    c == '\t' || c == '\n' || c == '\U{000B}' || c == '\U{000C}' || c == '\r' || c == ' '
    || c == '\U{00A0}' || c == '\U{1680}' || ('\U{2000}' <= c <= '\U{200A}')
    || c == '\U{2028}' || c == '\U{2029}' || c == '\U{202F}' || c == '\U{205F}'
    || c == '\U{3000}' || c == '\U{FEFF}'
  }

  predicate AllWhitespace(s: string)
  {
    forall k | 0 <= k < |s| :: IsWhitespace(s[k])
  }

  /** The first index at or after `i` that does not hold white space (or
      `|s|`): everything skipped is white space. */
  function SkipForward(s: string, i: nat): (j: nat)
    requires i <= |s|
    ensures i <= j <= |s|
    ensures forall k | i <= k < j :: IsWhitespace(s[k])
    ensures j < |s| ==> !IsWhitespace(s[j])
    decreases |s| - i
  {
    if i < |s| && IsWhitespace(s[i]) then SkipForward(s, i + 1) else i
  }

  /** The last index down from `j`, but not below `lo`, whose preceding
      character is not white space (or `lo`): everything skipped is white
      space. */
  function SkipBackward(s: string, lo: nat, j: nat): (i: nat)
    requires lo <= j <= |s|
    ensures lo <= i <= j
    ensures forall k | i <= k < j :: IsWhitespace(s[k])
    ensures lo < i ==> !IsWhitespace(s[i - 1])
  {
    if lo < j && IsWhitespace(s[j - 1]) then SkipBackward(s, lo, j - 1) else j
  }

  /** Number of leading white-space characters that `Trim` drops. */
  function LeadingWhitespace(s: string): nat
  {
    SkipForward(s, 0)
  }

  /** `s.trim()`: `s` with a white-space prefix and a white-space suffix taken
      off, and neither end of what is left is white space. */
  function Trim(s: string): (r: string)
    ensures LeadingWhitespace(s) + |r| <= |s|
    ensures r == s[LeadingWhitespace(s)..LeadingWhitespace(s) + |r|]
    ensures forall k | 0 <= k < LeadingWhitespace(s) :: IsWhitespace(s[k])
    ensures forall k | LeadingWhitespace(s) + |r| <= k < |s| :: IsWhitespace(s[k])
    ensures r != [] ==> !IsWhitespace(r[0]) && !IsWhitespace(r[|r| - 1])
    ensures r == [] <==> AllWhitespace(s)
  {
    var lo := SkipForward(s, 0);
    var hi := SkipBackward(s, lo, |s|);
    assert lo < hi ==> s[lo..hi][0] == s[lo] && s[lo..hi][hi - lo - 1] == s[hi - 1];
    s[lo..hi]
  }

  /** Text that neither starts nor ends with white space is left alone. */
  lemma TrimKeepsTrimmed(s: string)
    requires s != [] && !IsWhitespace(s[0]) && !IsWhitespace(s[|s| - 1])
    ensures Trim(s) == s
  {
    assert SkipForward(s, 0) == 0;
    assert SkipBackward(s, 0, |s|) == |s|;
  }
}

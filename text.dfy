/** The three notions of "blank" that the Java code relies on. They differ:
    `String.trim()` and Hibernate Validator's `@NotBlank` strip every code point
    up to U+0020, while `String.isBlank()` tests `Character.isWhitespace`. */
module JavaText {

  /** A code point that `String.trim()` removes from either end. */
  predicate IsTrimmable(c: char) {
    c <= ' '
  }

  /** `Character.isWhitespace`: the Unicode space, line and paragraph separators
      except the non-breaking ones, plus U+0009..U+000D and U+001C..U+001F. */
  predicate IsJavaWhitespace(c: char) {
    || ('\t' <= c <= '\r')
    || ('\U{1C}' <= c <= ' ')
    || c == '\U{1680}'
    || ('\U{2000}' <= c <= '\U{2006}')
    || ('\U{2008}' <= c <= '\U{200A}')
    || c == '\U{2028}' || c == '\U{2029}' || c == '\U{205F}' || c == '\U{3000}'
  }

  /** `String.isBlank()`: empty or only `Character.isWhitespace` code points. */
  predicate IsBlank(s: string) {
    forall i :: 0 <= i < |s| ==> IsJavaWhitespace(s[i])
  }

  /** Only code points that `trim()` strips: what `s.trim().isEmpty()` and
      Hibernate Validator's `@NotBlank` reject. */
  predicate IsTrimBlank(s: string) {
    forall i :: 0 <= i < |s| ==> IsTrimmable(s[i])
  }

  /** `String.trim()`: drops the leading and the trailing code points <= U+0020. */
  function Trim(s: string): (r: string)
  {
    TrimEnd(TrimStart(s))
  }

  function TrimStart(s: string): (r: string)
    ensures |r| <= |s| && r == s[|s| - |r|..]
    ensures r != [] ==> !IsTrimmable(r[0])
    ensures forall i :: 0 <= i < |s| - |r| ==> IsTrimmable(s[i])
  {
    if s != [] && IsTrimmable(s[0]) then TrimStart(s[1..]) else s
  }

  function TrimEnd(s: string): (r: string)
    ensures |r| <= |s| && r == s[..|r|]
    ensures r != [] ==> !IsTrimmable(r[|r| - 1])
    ensures forall i :: |r| <= i < |s| ==> IsTrimmable(s[i])
  {
    if s != [] && IsTrimmable(s[|s| - 1]) then TrimEnd(s[..|s| - 1]) else s
  }

  /** `s.trim().isEmpty()` holds exactly for the trim-blank strings. */
  lemma TrimEmptyIffTrimBlank(s: string)
    ensures Trim(s) == [] <==> IsTrimBlank(s)
  {
    var t := TrimStart(s);
    assert t != [] ==> t[0] == s[|s| - |t|];
    assert forall i :: |s| - |t| <= i < |s| ==> s[i] == t[i - (|s| - |t|)];
  }
}

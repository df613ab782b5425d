/**
 * The JavaScript string operations the file route relies on:
 * String.prototype.trim, used to reject a blank search term, and the
 * case-insensitive name match the document store performs for a search.
 */
module JsString {

  /** ECMAScript WhiteSpace and LineTerminator code points: what trim() removes. */
  predicate IsWhiteSpace(c: char)
  {
    c == '\t' || c == '\n' || c == '\U{B}' || c == '\U{C}' || c == '\r' || c == ' '
    || c == '\U{A0}' || c == '\U{1680}' || ('\U{2000}' <= c <= '\U{200A}')
    || c == '\U{2028}' || c == '\U{2029}' || c == '\U{202F}' || c == '\U{205F}'
    || c == '\U{3000}' || c == '\U{FEFF}'
  }

  /** A string every character of which is white space (the empty string included). */
  predicate IsBlank(s: string)
  {
    forall i :: 0 <= i < |s| ==> IsWhiteSpace(s[i])
  }

  /** Drops the leading white space: the result is the longest suffix that does not start with it. */
  function TrimStart(s: string): (r: string)
    ensures |r| <= |s| && r == s[|s| - |r|..]
    ensures IsBlank(s[..|s| - |r|])
    ensures r == [] || !IsWhiteSpace(r[0])
  {
    if s != [] && IsWhiteSpace(s[0]) then
      var rest := TrimStart(s[1..]);
      assert s[1..][..|s| - 1 - |rest|] == s[1..|s| - |rest|];
      rest
    else s
  }

  /** Drops the trailing white space: the result is the longest prefix that does not end with it. */
  function TrimEnd(s: string): (r: string)
    ensures |r| <= |s| && r == s[..|r|]
    ensures IsBlank(s[|r|..])
    ensures r == [] || !IsWhiteSpace(r[|r| - 1])
  {
    if s != [] && IsWhiteSpace(s[|s| - 1]) then
      var rest := TrimEnd(s[..|s| - 1]);
      assert s[..|s| - 1][|rest|..] == s[|rest|..|s| - 1];
      rest
    else s
  }

  /** String.prototype.trim(). */
  function Trim(s: string): string
  {
    TrimEnd(TrimStart(s))
  }

  /** trim() yields "" exactly when the string is blank. */
  lemma TrimEmptyIffBlank(s: string)
    ensures Trim(s) == "" <==> IsBlank(s)
  {
  }

  /** ASCII lower-casing of one character. */
  function ToLowerChar(c: char): char
  {
    if 'A' <= c <= 'Z' then (c as int - 'A' as int + 'a' as int) as char else c
  }

  function ToLower(s: string): (r: string)
    ensures |r| == |s|
    ensures forall i :: 0 <= i < |s| ==> r[i] == ToLowerChar(s[i])
  {
    seq(|s|, i requires 0 <= i < |s| => ToLowerChar(s[i]))
  }

  /** `pattern` occurs in `text` at offset `k`. */
  predicate OccursAt(text: string, pattern: string, k: int)
  {
    0 <= k && k + |pattern| <= |text| && text[k..k + |pattern|] == pattern
  }

  /** `pattern` occurs somewhere in `text`, ignoring ASCII case. */
  predicate ContainsIgnoreCase(text: string, pattern: string)
  {
    exists k :: 0 <= k <= |text| - |pattern| && OccursAt(ToLower(text), ToLower(pattern), k)
  }

  /** An empty pattern matches every name: the reason a blank search term must be refused. */
  lemma EmptyPatternMatchesEverything(text: string)
    ensures ContainsIgnoreCase(text, "")
  {
    assert OccursAt(ToLower(text), ToLower(""), 0);
  }

  /** The match does not depend on the case of the pattern's letters. */
  lemma {:induction false} MatchIgnoresPatternCase(text: string, pattern: string)
    ensures ContainsIgnoreCase(text, pattern) <==> ContainsIgnoreCase(text, ToLower(pattern))
  {
    assert ToLower(ToLower(pattern)) == ToLower(pattern);
  }
}

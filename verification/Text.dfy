/**
 * The string operations the receiver's hand-written slider scan relies on: ordinal substring
 * search (String.IndexOf, String.Contains) and String.Trim.
 */
module Text {

  /** `pat` occurs in `s` starting at index `i`. */
  predicate OccursAt(s: string, pat: string, i: int) {
    0 <= i && i + |pat| <= |s| && s[i..i + |pat|] == pat
  }

  /** String.Contains: `pat` occurs somewhere in `s`. */
  predicate Contains(s: string, pat: string) {
    exists i :: 0 <= i <= |s| - |pat| && OccursAt(s, pat, i)
  }

  /**
   * String.IndexOf(pat, from): the first index at or after `from` where `pat` occurs, or -1 when
   * there is none. Like the library, `from` may equal the length of `s`.
   */
  function IndexOf(s: string, pat: string, from: nat): (r: int)
    requires from <= |s|
    ensures r == -1 || from <= r <= |s| - |pat|
    ensures r != -1 ==> OccursAt(s, pat, r)
    ensures forall j :: from <= j && (r == -1 || j < r) ==> !OccursAt(s, pat, j)
    decreases |s| - from
  {
    if from + |pat| > |s| then -1
    else if s[from..from + |pat|] == pat then from
    else IndexOf(s, pat, from + 1)
  }

  /** Searching from the start finds something exactly when the text contains the pattern. */
  lemma ContainsIffFound(s: string, pat: string)
    ensures Contains(s, pat) <==> IndexOf(s, pat, 0) != -1
  {
    var r := IndexOf(s, pat, 0);
    if r != -1 {
      assert OccursAt(s, pat, r);
    }
  }

  /** A text that contains a longer pattern contains each of its prefixes. */
  lemma ContainsPrefix(s: string, pat: string, prefix: string)
    requires Contains(s, pat)
    requires prefix <= pat
    ensures Contains(s, prefix)
  {
    var i :| 0 <= i <= |s| - |pat| && OccursAt(s, pat, i);
    assert s[i..i + |prefix|] == pat[..|prefix|] == prefix;
    assert OccursAt(s, prefix, i);
  }

  /** Char.IsWhiteSpace: the Unicode space separators, line and paragraph separators, and controls. */
  predicate IsWhiteSpace(c: char) {
    || c == ' ' || '\t' <= c <= '\r'
    || c == '\U{85}' || c == '\U{A0}' || c == '\U{1680}'
    || '\U{2000}' <= c <= '\U{200A}'
    || c == '\U{2028}' || c == '\U{2029}' || c == '\U{202F}' || c == '\U{205F}' || c == '\U{3000}'
  }

  /** How many white-space characters `s` starts with. */
  function LeadingWhiteSpace(s: string): (n: nat)
    ensures n <= |s|
    ensures forall i :: 0 <= i < n ==> IsWhiteSpace(s[i])
    ensures n < |s| ==> !IsWhiteSpace(s[n])
  {
    if s == [] || !IsWhiteSpace(s[0]) then 0 else 1 + LeadingWhiteSpace(s[1..])
  }

  /** How many white-space characters `s` ends with. */
  function TrailingWhiteSpace(s: string): (n: nat)
    ensures n <= |s|
    ensures forall i :: |s| - n <= i < |s| ==> IsWhiteSpace(s[i])
    ensures n < |s| ==> !IsWhiteSpace(s[|s| - 1 - n])
  {
    if s == [] || !IsWhiteSpace(s[|s| - 1]) then 0 else 1 + TrailingWhiteSpace(s[..|s| - 1])
  }

  /**
   * String.Trim: `s` without its leading and trailing white space. The result is the piece of
   * `s` between a white-space prefix and a white-space suffix, neither end of it is white space,
   * and a text without white space comes back unchanged.
   */
  function Trim(s: string): (r: string)
    ensures exists i, j :: && 0 <= i <= j <= |s| && r == s[i..j]
                           && (forall k :: 0 <= k < i ==> IsWhiteSpace(s[k]))
                           && (forall k :: j <= k < |s| ==> IsWhiteSpace(s[k]))
    ensures r == [] || (!IsWhiteSpace(r[0]) && !IsWhiteSpace(r[|r| - 1]))
    ensures forall c :: c in r ==> c in s
    ensures (forall i :: 0 <= i < |s| ==> !IsWhiteSpace(s[i])) ==> r == s
  {
    var lead := LeadingWhiteSpace(s);
    if lead == |s| then
      assert s[|s|..|s|] == [];
      []
    else
      var trail := TrailingWhiteSpace(s);
      assert lead < |s| - trail;
      s[lead..|s| - trail]
  }
}

/**
 * The display name of a function: the part of its source text matched by
 * the anchored pattern `^function\b[^\)]+\)`, or "" when nothing matches.
 * The pattern is scanned by hand; there is no regular-expression engine.
 */
module FunctionNames {
  import opened Wrappers

  /** The word every match starts with. */
  const KEYWORD: string := "function"

  /** The word characters of `\b`, which are ASCII only without the `u` flag. */
  predicate IsWordChar(c: char)
  {
    'a' <= c <= 'z' || 'A' <= c <= 'Z' || '0' <= c <= '9' || c == '_'
  }

  /**
   * `t` is a whole match of the pattern: "function", a word boundary (so the
   * next character is not a word character), one or more characters other
   * than ')', then ')'.
   */
  ghost predicate IsMatch(t: string)
  {
    |t| >= 10 && t[..8] == KEYWORD && !IsWordChar(t[8]) && t[|t| - 1] == ')' &&
    forall k :: 8 <= k < |t| - 1 ==> t[k] != ')'
  }

  /** A string has at most one prefix that matches, since the match ends at the first ')'. */
  lemma MatchUnique(s: string, n: nat, m: nat)
    requires n <= m <= |s| && IsMatch(s[..n]) && IsMatch(s[..m])
    ensures n == m
  {
  }

  /** The index of the first ')' in `s` at or after `i`, if there is one. */
  function FindClose(s: string, i: nat): (r: Option<nat>)
    requires i <= |s|
    ensures r.Some? ==> i <= r.value < |s| && s[r.value] == ')'
    ensures r.Some? ==> forall k :: i <= k < r.value ==> s[k] != ')'
    ensures r.None? ==> forall k :: i <= k < |s| ==> s[k] != ')'
    decreases |s| - i
  {
    if i == |s| then None
    else if s[i] == ')' then Some(i)
    else FindClose(s, i + 1)
  }

  /** The name shown for a stack frame whose function has source text `text`. */
  function FunctionName(text: string): string
  {
    if |text| > 8 && text[..8] == KEYWORD && !IsWordChar(text[8]) && text[8] != ')' then
      match FindClose(text, 9)
      case Some(j) => text[..j + 1]
      case None => ""
    else ""
  }

  /**
   * FunctionName gives the one prefix of the text that matches the pattern
   * when there is one, and "" exactly when no prefix matches.
   */
  lemma FunctionNameMatches(text: string)
    ensures FunctionName(text) != "" ==> IsMatch(FunctionName(text)) && FunctionName(text) <= text
    ensures FunctionName(text) == "" <==> forall n :: 0 <= n <= |text| ==> !IsMatch(text[..n])
  {
  }
}

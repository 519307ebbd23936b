/** The built-in string rules the request validators chain: `NotEmpty`,
    `MaximumLength`, `MinimumLength` and `Matches` with a one-class pattern.
    Lengths count characters. */
module FluentRules {

  /** `char.IsWhiteSpace`: the characters of the Unicode White_Space property. */
  predicate IsWhiteSpace(c: char) {
    || ('\U{9}' <= c <= '\U{D}') || c == '\U{20}' || c == '\U{85}' || c == '\U{A0}' || c == '\U{1680}'
    || ('\U{2000}' <= c <= '\U{200A}') || c == '\U{2028}' || c == '\U{2029}' || c == '\U{202F}'
    || c == '\U{205F}' || c == '\U{3000}'
  }

  /** `NotEmpty` on a string: neither empty nor made only of white space. */
  predicate NotEmpty(s: string) {
    exists i :: 0 <= i < |s| && !IsWhiteSpace(s[i])
  }

  predicate MaximumLength(s: string, max: nat) {
    |s| <= max
  }

  predicate MinimumLength(s: string, min: nat) {
    |s| >= min
  }

  /** `Matches("[lo-hi]")`: some character lies in the range (no anchors, so anywhere). */
  predicate MatchesRange(s: string, lo: char, hi: char) {
    exists i :: 0 <= i < |s| && lo <= s[i] <= hi
  }

  /** A string passes `NotEmpty` exactly when it is not made only of white space; in
      particular the empty string fails, and a passing string has a character. */
  lemma NotEmptyIsNonEmpty(s: string)
    ensures NotEmpty(s) <==> !(forall i :: 0 <= i < |s| ==> IsWhiteSpace(s[i]))
    ensures NotEmpty(s) ==> |s| > 0
    ensures !NotEmpty("") && !NotEmpty(" \t")
  {
    assert " \t"[0] == ' ' && " \t"[1] == '\t';
  }
}

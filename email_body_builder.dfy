/** Filling an e-mail template (Helpers/EmailBodyBuilder.cs). The templates
    directory is given as a map from template name to its text; a name the map lacks
    is a missing file. `string.Replace` is ordinal and replaces every
    non-overlapping occurrence, scanning left to right. */
module EmailBodyBuilder {

  /** The placeholder token for a key: the key in double braces. */
  function Token(key: string): (t: string)
    ensures |t| == |key| + 4
    ensures t[..2] == "{{" && t[2..|t| - 2] == key && t[|t| - 2..] == "}}"
  {
    "{{" + key + "}}"
  }

  predicate OccursAt(s: string, pattern: string, i: nat) {
    i + |pattern| <= |s| && s[i..i + |pattern|] == pattern
  }

  predicate Occurs(s: string, pattern: string) {
    exists i: nat :: i <= |s| && OccursAt(s, pattern, i)
  }

  /** `s.Replace(pattern, replacement)` for a non-empty pattern. */
  function Replace(s: string, pattern: string, replacement: string): string
    requires |pattern| > 0
    decreases |s|
  {
    if |s| < |pattern| then s
    else if s[..|pattern|] == pattern then replacement + Replace(s[|pattern|..], pattern, replacement)
    else [s[0]] + Replace(s[1..], pattern, replacement)
  }

  /** An occurrence in the tail is an occurrence one place further on. */
  lemma OccursInTail(s: string, pattern: string, j: nat)
    requires |s| > 0
    ensures OccursAt(s[1..], pattern, j) <==> OccursAt(s, pattern, j + 1)
  {
    if j + 1 + |pattern| <= |s| {
      assert s[1..][j..j + |pattern|] == s[j + 1..j + 1 + |pattern|];
    }
  }

  /** A text without the pattern comes back unchanged. */
  lemma {:induction false} ReplaceAbsent(s: string, pattern: string, replacement: string)
    requires |pattern| > 0 && !Occurs(s, pattern)
    ensures Replace(s, pattern, replacement) == s
    decreases |s|
  {
    if |s| >= |pattern| {
      assert !OccursAt(s, pattern, 0);
      assert !Occurs(s[1..], pattern) by {
        forall j: nat | j <= |s[1..]| && OccursAt(s[1..], pattern, j) ensures false {
          OccursInTail(s, pattern, j);
        }
      }
      ReplaceAbsent(s[1..], pattern, replacement);
      assert [s[0]] + s[1..] == s;
    }
  }

  /** `Replace` keeps the first character when the pattern does not start there. */
  lemma ReplaceSkip(s: string, pattern: string, replacement: string)
    requires 0 < |pattern| <= |s| && !OccursAt(s, pattern, 0)
    ensures Replace(s, pattern, replacement) == [s[0]] + Replace(s[1..], pattern, replacement)
  {
  }

  /** A first occurrence at `i > 0` is a first occurrence at `i - 1` of the tail. */
  lemma FirstInTail(s: string, pattern: string, i: nat)
    requires i > 0 && OccursAt(s, pattern, i)
    requires forall j: nat :: j < i ==> !OccursAt(s, pattern, j)
    ensures !OccursAt(s, pattern, 0)
    ensures OccursAt(s[1..], pattern, i - 1)
    ensures forall j: nat :: j < i - 1 ==> !OccursAt(s[1..], pattern, j)
  {
    OccursInTail(s, pattern, i - 1);
    forall j: nat | j < i - 1 ensures !OccursAt(s[1..], pattern, j) {
      OccursInTail(s, pattern, j);
    }
  }

  /** Regrouping the first character with the text before the occurrence. */
  lemma Regroup(s: string, i: nat, whole: string, tail: string, replacement: string, rest: string)
    requires 0 < i <= |s|
    requires whole == [s[0]] + tail
    requires tail == s[1..][..i - 1] + replacement + rest
    ensures whole == s[..i] + replacement + rest
  {
    assert [s[0]] + s[1..][..i - 1] == s[..i];
  }

  /** The text up to the first occurrence is kept, that occurrence becomes the
      replacement, and replacing goes on in the rest: so every occurrence is
      replaced, not only the first. */
  lemma {:induction false} ReplaceAtFirst(s: string, pattern: string, replacement: string, i: nat)
    requires |pattern| > 0 && OccursAt(s, pattern, i)
    requires forall j: nat :: j < i ==> !OccursAt(s, pattern, j)
    ensures Replace(s, pattern, replacement)
         == s[..i] + replacement + Replace(s[i + |pattern|..], pattern, replacement)
    decreases i
  {
    if i == 0 {
      assert s[..|pattern|] == pattern;
      assert s[..i] == [];
    } else {
      var t := s[1..];
      FirstInTail(s, pattern, i);
      ReplaceSkip(s, pattern, replacement);
      ReplaceAtFirst(t, pattern, replacement, i - 1);
      assert t[i - 1 + |pattern|..] == s[i + |pattern|..];
      Regroup(s, i, Replace(s, pattern, replacement), Replace(t, pattern, replacement), replacement,
              Replace(s[i + |pattern|..], pattern, replacement));
    }
  }

  /** The placeholders in the dictionary's enumeration order, each replacing on the
      previous result. */
  function ApplyAll(body: string, placeholders: seq<(string, string)>): string
    decreases |placeholders|
  {
    if placeholders == [] then body
    else ApplyAll(Replace(body, Token(placeholders[0].0), placeholders[0].1), placeholders[1..])
  }

  /** The last placeholder acts on the result of all the earlier ones. */
  lemma {:induction false} ApplyAllLast(body: string, placeholders: seq<(string, string)>, p: (string, string))
    ensures ApplyAll(body, placeholders + [p]) == Replace(ApplyAll(body, placeholders), Token(p.0), p.1)
    decreases |placeholders|
  {
    if placeholders == [] {
      assert [p][1..] == [];
    } else {
      assert (placeholders + [p])[1..] == placeholders[1..] + [p];
      ApplyAllLast(Replace(body, Token(placeholders[0].0), placeholders[0].1), placeholders[1..], p);
    }
  }

  /** A template that mentions none of the keys' tokens is returned as it is
      (in particular, for an empty dictionary). */
  lemma {:induction false} ApplyAllUntouched(body: string, placeholders: seq<(string, string)>)
    requires forall k :: 0 <= k < |placeholders| ==> !Occurs(body, Token(placeholders[k].0))
    ensures ApplyAll(body, placeholders) == body
    decreases |placeholders|
  {
    if placeholders != [] {
      ReplaceAbsent(body, Token(placeholders[0].0), placeholders[0].1);
      ApplyAllUntouched(body, placeholders[1..]);
    }
  }

  datatype BuildResult = FileNotFound(templateName: string) | Body(text: string)

  /** `Build`: a missing template raises instead of returning a body; otherwise the
      template's text with every placeholder filled in, in order. */
  method Build(templates: map<string, string>, templateName: string, placeholders: seq<(string, string)>)
    returns (r: BuildResult)
    ensures templateName !in templates <==> r == FileNotFound(templateName)
    ensures templateName in templates ==> r == Body(ApplyAll(templates[templateName], placeholders))
  {
    if templateName !in templates {
      return FileNotFound(templateName);
    }
    var body := templates[templateName];
    for i := 0 to |placeholders|
      invariant ApplyAll(body, placeholders[i..]) == ApplyAll(templates[templateName], placeholders)
    {
      assert placeholders[i..][1..] == placeholders[i + 1..];
      body := Replace(body, Token(placeholders[i].0), placeholders[i].1);
    }
    return Body(body);
  }
}

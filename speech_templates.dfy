/**
 * What the speech helpers of the browser versions share: the utterance handed to speech
 * synthesis, the `settings.language || 'en-US'` fallback, and `String.prototype.replace`
 * with a string pattern (section 22.1.3.19 of ECMA-262): only the first occurrence is
 * replaced, and the replacement string's `$$`, `$&`, `` $` `` and `$'` patterns are expanded
 * (section 22.1.3.19.1, GetSubstitution; a string pattern has no captures, so `$n` and `$<`
 * stay as written).
 */
module SpeechTemplates {

  /** A message and the language it is spoken in. */
  datatype Utterance = Utterance(text: string, lang: string)

  /** `settings.language || 'en-US'`. */
  function SpeechLanguage(language: string): (lang: string)
    ensures lang != ""
    ensures language != "" ==> lang == language
  {
    if language == "" then "en-US" else language
  }

  /** The decimal digits of a non-negative integer, as `String(n)` writes them. */
  function NatToString(n: nat): (s: string)
    ensures |s| >= 1 && forall k :: 0 <= k < |s| ==> '0' <= s[k] <= '9'
    decreases n
  {
    var digit := ['0' + (n % 10) as char];
    if n < 10 then digit else NatToString(n / 10) + digit
  }

  /** `String(i)` for an integer, with a minus sign when negative. */
  function IntToString(i: int): (s: string)
    ensures |s| >= 1
  {
    if i < 0 then "-" + NatToString(-i) else NatToString(i)
  }

  /** The placeholder `{key}`. */
  function Placeholder(key: string): string {
    "{" + key + "}"
  }

  ghost predicate OccursAt(s: string, p: string, i: int) {
    0 <= i && i + |p| <= |s| && s[i..i + |p|] == p
  }

  /** The first index at or after `from` where p occurs in s, or -1. */
  function IndexFrom(s: string, p: string, from: nat): (r: int)
    requires from <= |s|
    ensures r == -1 || (from <= r && OccursAt(s, p, r))
    ensures r == -1 ==> forall i :: from <= i <= |s| ==> !OccursAt(s, p, i)
    ensures r >= 0 ==> forall i :: from <= i < r ==> !OccursAt(s, p, i)
    decreases |s| - from
  {
    if from + |p| > |s| then -1
    else if s[from..from + |p|] == p then from
    else if from == |s| then -1
    else IndexFrom(s, p, from + 1)
  }

  /** GetSubstitution for a string pattern: the replacement with its `$` patterns expanded. */
  function Substitution(replacement: string, matched: string, before: string, after: string): string
    decreases |replacement|
  {
    if |replacement| == 0 then ""
    else if replacement[0] == '$' && |replacement| >= 2 && replacement[1] == '$' then
      "$" + Substitution(replacement[2..], matched, before, after)
    else if replacement[0] == '$' && |replacement| >= 2 && replacement[1] == '&' then
      matched + Substitution(replacement[2..], matched, before, after)
    else if replacement[0] == '$' && |replacement| >= 2 && replacement[1] == '`' then
      before + Substitution(replacement[2..], matched, before, after)
    else if replacement[0] == '$' && |replacement| >= 2 && replacement[1] == '\'' then
      after + Substitution(replacement[2..], matched, before, after)
    else
      [replacement[0]] + Substitution(replacement[1..], matched, before, after)
  }

  /** `s.replace(pattern, replacement)` with a string pattern. */
  function ReplaceFirst(s: string, pattern: string, replacement: string): string {
    var i := IndexFrom(s, pattern, 0);
    if i < 0 then s
    else s[..i] + Substitution(replacement, pattern, s[..i], s[i + |pattern|..]) + s[i + |pattern|..]
  }

  // ---------------------------------------------------------------- lemmas

  /** A replacement without `$` is inserted as it is. */
  lemma {:induction false} SubstitutionPlain(replacement: string, matched: string, before: string, after: string)
    requires '$' !in replacement
    ensures Substitution(replacement, matched, before, after) == replacement
    decreases |replacement|
  {
    if |replacement| > 0 {
      assert replacement[0] != '$';
      assert '$' !in replacement[1..] by {
        forall k | 0 <= k < |replacement| - 1 ensures replacement[1..][k] != '$' {
          assert replacement[1..][k] == replacement[k + 1];
        }
      }
      SubstitutionPlain(replacement[1..], matched, before, after);
      assert [replacement[0]] + replacement[1..] == replacement;
    }
  }

  /** `$$` inserts one dollar sign and `$&` the matched text. */
  lemma SubstitutionPatterns(matched: string, before: string, after: string)
    ensures Substitution("$$", matched, before, after) == "$"
    ensures Substitution("$&", matched, before, after) == matched
    ensures Substitution("$`", matched, before, after) == before
    ensures Substitution("$'", matched, before, after) == after
  {
    assert "$$"[2..] == "" && "$&"[2..] == "" && "$`"[2..] == "" && "$'"[2..] == "";
  }

  /** The first occurrence of the pattern, and only it, is replaced: s = a + pattern + b with no earlier occurrence gives a + replacement + b. */
  lemma ReplaceFirstOccurrence(a: string, pattern: string, b: string, replacement: string)
    requires forall i :: 0 <= i < |a| ==> !OccursAt(a + pattern + b, pattern, i)
    requires '$' !in replacement
    ensures ReplaceFirst(a + pattern + b, pattern, replacement) == a + replacement + b
  {
    var s := a + pattern + b;
    assert s[|a|..|a| + |pattern|] == pattern;
    assert OccursAt(s, pattern, |a|);
    var i := IndexFrom(s, pattern, 0);
    assert i == |a|;
    assert s[..i] == a && s[i + |pattern|..] == b;
    SubstitutionPlain(replacement, pattern, a, b);
  }

  /** Without an occurrence the text is unchanged. */
  lemma ReplaceAbsent(s: string, pattern: string, replacement: string)
    requires forall i :: 0 <= i <= |s| ==> !OccursAt(s, pattern, i)
    ensures ReplaceFirst(s, pattern, replacement) == s
  {
  }

  /** A later occurrence survives: "{k}{k}" with value v becomes v + "{k}". */
  lemma ReplaceOnlyFirst(key: string, value: string)
    requires '$' !in value
    ensures ReplaceFirst(Placeholder(key) + Placeholder(key), Placeholder(key), value) == value + Placeholder(key)
  {
    var p := Placeholder(key);
    var empty: string := [];
    assert empty + p + p == p + p;
    assert empty + value + p == value + p;
    ReplaceFirstOccurrence(empty, p, p, value);
  }
}

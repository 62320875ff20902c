/**
 * web/ui/utils.js: `speak(key, params)` looks the key up in the loaded translations (a
 * failed load gives the empty table), falls back to the key itself, replaces the first
 * `{param}` of each parameter in entry order and speaks the text in the settings language.
 * The fetch is not modelled: the loaded table is a parameter.
 */
module WebSpeech {
  import opened Wrappers
  import opened SpeechTemplates

  /** `translations[key] || key`. */
  function Lookup(translations: map<string, string>, key: string): (text: string)
    ensures key !in translations ==> text == key
    ensures key in translations && translations[key] != "" ==> text == translations[key]
    ensures text == "" ==> key == ""
  {
    if key in translations && translations[key] != "" then translations[key] else key
  }

  /** The substitution loop: each parameter replaces the first occurrence of its placeholder, in order. */
  function ApplyParams(text: string, params: seq<(string, string)>): string
    decreases |params|
  {
    if params == [] then text
    else ApplyParams(ReplaceFirst(text, Placeholder(params[0].0), params[0].1), params[1..])
  }

  /** `speak`: nothing without speech synthesis, otherwise one utterance in the settings language. */
  function Speak(hasSpeechSynthesis: bool, translations: map<string, string>, language: string,
                 key: string, params: seq<(string, string)>): (u: Option<Utterance>)
    ensures u.None? <==> !hasSpeechSynthesis
    ensures u.Some? ==> u.value == Utterance(ApplyParams(Lookup(translations, key), params), SpeechLanguage(language))
  {
    if !hasSpeechSynthesis then None
    else Some(Utterance(ApplyParams(Lookup(translations, key), params), SpeechLanguage(language)))
  }

  // ---------------------------------------------------------------- lemmas

  /** Parameters apply in entry order: the last one acts on the text the others left. */
  lemma {:induction false} ParamsInOrder(text: string, params: seq<(string, string)>, last: (string, string))
    ensures ApplyParams(text, params + [last]) == ReplaceFirst(ApplyParams(text, params), Placeholder(last.0), last.1)
    decreases |params|
  {
    if params == [] {
      assert [] + [last] == [last];
      assert [last][1..] == [];
    } else {
      assert (params + [last])[1..] == params[1..] + [last];
      ParamsInOrder(ReplaceFirst(text, Placeholder(params[0].0), params[0].1), params[1..], last);
    }
  }

  /**
   * A translation a + "{p}" + b, with no earlier "{p}", spoken with the single parameter p = v
   * (v without `$`) says a + v + b; a failed load says the key with the same substitution.
   */
  lemma OneParam(translations: map<string, string>, language: string, key: string, a: string, p: string, b: string, v: string)
    requires key in translations && translations[key] == a + Placeholder(p) + b
    requires forall i :: 0 <= i < |a| ==> !OccursAt(a + Placeholder(p) + b, Placeholder(p), i)
    requires '$' !in v
    ensures Speak(true, translations, language, key, [(p, v)]) == Some(Utterance(a + v + b, SpeechLanguage(language)))
    ensures Speak(true, map[], language, key, [(p, v)]) == Some(Utterance(ReplaceFirst(key, Placeholder(p), v), SpeechLanguage(language)))
  {
    assert translations[key] != "" by { assert |translations[key]| >= |Placeholder(p)| > 0; }
    ReplaceFirstOccurrence(a, Placeholder(p), b, v);
    assert [(p, v)][1..] == [];
    assert ApplyParams(translations[key], [(p, v)]) == a + v + b;
    assert Lookup(map[], key) == key;
    assert ApplyParams(key, [(p, v)]) == ReplaceFirst(key, Placeholder(p), v);
  }
}

/**
 * past/web/v0.9.8.6/web/ui/utils.js: `speak(elementId, state)` says the loaded translation of
 * the element id (the id itself when there is none; a failed load gives the empty table) with
 * each state entry's `{key}` replaced once: 'state' by a localized word for the settings
 * toggle and the start/stop button only, 'mode', 'grid', 'engine' and 'lang' by a localized
 * name of their value, any other key by the raw value. Every language other than en-US gets
 * the Spanish words.
 */
module LocalizedSpeech {
  import opened Wrappers
  import opened SpeechTemplates

  /** The English word for en-US, the Spanish one for every other language. */
  function Wording(lang: string, english: string, spanish: string): (w: string)
    ensures lang == "en-US" ==> w == english
    ensures lang != "en-US" ==> w == spanish
  {
    if lang == "en-US" then english else spanish
  }

  /** What replaces `{key}` for one state entry; None when the entry replaces nothing. */
  function Localized(elementId: string, key: string, value: string, lang: string): (r: Option<string>)
    ensures r.None? <==> key == "state" && elementId != "settingsToggle" && elementId != "startStop"
    ensures key != "state" && key != "mode" && key != "grid" && key != "engine" && key != "lang" ==> r == Some(value)
  {
    if key == "state" then
      if elementId == "settingsToggle" then
        Some(if value == "on" then Wording(lang, "enabled", "activadas") else Wording(lang, "disabled", "desactivadas"))
      else if elementId == "startStop" then
        Some(if value == "started" then Wording(lang, "started", "iniciada") else Wording(lang, "stopped", "detenida"))
      else None
    else if key == "mode" then
      Some(if value == "day" then Wording(lang, "day", "día") else Wording(lang, "night", "noche"))
    else if key == "grid" then
      Some(if value == "hex-tonnetz" then Wording(lang, "hexagonal tonnetz", "tonnetz hexagonal")
           else Wording(lang, "circle of fifths", "círculo de quintas"))
    else if key == "engine" then
      Some(if value == "sine-wave" then Wording(lang, "sine wave", "onda sinusoidal") else Wording(lang, "FM synthesis", "síntesis FM"))
    else if key == "lang" then
      Some(if value == "en-US" then Wording(lang, "English", "inglés") else Wording(lang, "Spanish", "español"))
    else
      Some(value)
  }

  /** The substitution loop over the state entries, in entry order. */
  function ApplyState(elementId: string, message: string, state: seq<(string, string)>, lang: string): string
    decreases |state|
  {
    if state == [] then message
    else
      var r := Localized(elementId, state[0].0, state[0].1, lang);
      var next := if r.Some? then ReplaceFirst(message, Placeholder(state[0].0), r.value) else message;
      ApplyState(elementId, next, state[1..], lang)
  }

  /** `translations[elementId] || ''`, then the id itself when that is empty. */
  function Message(translations: map<string, string>, elementId: string): (message: string)
    ensures message == "" <==> elementId == "" && (elementId !in translations || translations[elementId] == "")
    ensures elementId !in translations ==> message == elementId
  {
    if elementId in translations && translations[elementId] != "" then translations[elementId] else elementId
  }

  /** `speak`: an utterance in the settings language unless the message is empty. */
  function Speak(translations: map<string, string>, language: string, elementId: string, state: seq<(string, string)>)
    : (u: Option<Utterance>)
    ensures u.None? <==> Message(translations, elementId) == ""
    ensures u.Some? ==> (u.value.lang == SpeechLanguage(language)
      && u.value.text == ApplyState(elementId, Message(translations, elementId), state, SpeechLanguage(language)))
  {
    var lang := SpeechLanguage(language);
    var message := Message(translations, elementId);
    if message == "" then None else Some(Utterance(ApplyState(elementId, message, state, lang), lang))
  }

  // ---------------------------------------------------------------- lemmas

  /** For any other element, 'state' entries change nothing, whatever their values. */
  lemma {:induction false} StateIgnoredElsewhere(elementId: string, message: string, state: seq<(string, string)>, lang: string)
    requires elementId != "settingsToggle" && elementId != "startStop"
    requires forall k :: 0 <= k < |state| ==> state[k].0 == "state"
    ensures ApplyState(elementId, message, state, lang) == message
    decreases |state|
  {
    if state != [] {
      assert state[0].0 == "state";
      StateIgnoredElsewhere(elementId, message, state[1..], lang);
    }
  }

  /** The named keys give the first wording exactly for day / hex-tonnetz / sine-wave / en-US, in English only for en-US. */
  lemma NamedValues(elementId: string, value: string, lang: string)
    ensures Localized(elementId, "mode", value, lang) == Some(if value == "day" then Wording(lang, "day", "día") else Wording(lang, "night", "noche"))
    ensures Localized(elementId, "grid", value, lang).value
         == (if value == "hex-tonnetz" then Wording(lang, "hexagonal tonnetz", "tonnetz hexagonal") else Wording(lang, "circle of fifths", "círculo de quintas"))
    ensures Localized(elementId, "engine", value, lang).value
         == (if value == "sine-wave" then Wording(lang, "sine wave", "onda sinusoidal") else Wording(lang, "FM synthesis", "síntesis FM"))
    ensures Localized(elementId, "lang", value, lang).value
         == (if value == "en-US" then Wording(lang, "English", "inglés") else Wording(lang, "Spanish", "español"))
    ensures Localized("settingsToggle", "state", value, lang).value
         == (if value == "on" then Wording(lang, "enabled", "activadas") else Wording(lang, "disabled", "desactivadas"))
  {
  }

  /** A failed load speaks the element id itself, with the state applied. */
  lemma FailedLoad(language: string, elementId: string, state: seq<(string, string)>)
    requires elementId != ""
    ensures Speak(map[], language, elementId, state) == Some(Utterance(ApplyState(elementId, elementId, state, SpeechLanguage(language)), SpeechLanguage(language)))
  {
  }
}

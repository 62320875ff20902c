/**
 * past/ui/utils.js: `speak(elementId, state)` builds both language tables from the state and
 * says the entry the settings language and the element id select. An id without an entry
 * says nothing; a language without a table makes the lookup throw, modelled as an error.
 */
module PrototypeSpeech {
  import opened Wrappers
  import opened SpeechTemplates

  /** The state object's fields; None where the field is absent. */
  datatype SpeechState = SpeechState(state: Option<string>, mode: Option<string>, grid: Option<string>,
                                     engine: Option<string>, lang: Option<string>)

  /** `x || fallback` for an optional string field. */
  function OrElse(x: Option<string>, fallback: string): (r: string)
    ensures x.Some? && x.value != "" ==> r == x.value
    ensures x.None? || x.value == "" ==> r == fallback
  {
    if x.Some? && x.value != "" then x.value else fallback
  }

  /** `x === v` for an optional string field. */
  function Is(x: Option<string>, v: string): bool {
    x == Some(v)
  }

  /** The element ids both tables have. */
  predicate Known(elementId: string) {
    elementId in {"settingsToggle", "modeBtn", "gridSelect", "synthesisSelect", "languageSelect", "startStop", "cameraError"}
  }

  /** The en-US table entry, '' for an id it lacks. */
  function English(elementId: string, s: SpeechState): (text: string)
    ensures text != "" <==> Known(elementId)
  {
    match elementId
    case "settingsToggle" => "Settings " + (if Is(s.state, "on") then "enabled" else "disabled")
    case "modeBtn" => "Mode set to " + OrElse(s.mode, "day")
    case "gridSelect" => "Grid set to " + (if Is(s.grid, "hex-tonnetz") then "hexagonal tonnetz" else "circle of fifths")
    case "synthesisSelect" => "Synthesis set to " + (if Is(s.engine, "sine-wave") then "sine wave" else "FM synthesis")
    case "languageSelect" => "Language set to " + (if Is(s.lang, "en-US") then "English" else "Spanish")
    case "startStop" => "Navigation " + OrElse(s.state, "started")
    case "cameraError" => "Failed to access camera"
    case _ => ""
  }

  /** The es-ES table entry, '' for an id it lacks. */
  function Spanish(elementId: string, s: SpeechState): (text: string)
    ensures text != "" <==> Known(elementId)
  {
    match elementId
    case "settingsToggle" => "Configuraciones " + (if Is(s.state, "on") then "activadas" else "desactivadas")
    case "modeBtn" => "Modo establecido en " + (if Is(s.mode, "day") then "día" else "noche")
    case "gridSelect" => "Cuadrícula establecida en " + (if Is(s.grid, "hex-tonnetz") then "tonnetz hexagonal" else "círculo de quintas")
    case "synthesisSelect" => "Síntesis establecida en " + (if Is(s.engine, "sine-wave") then "onda sinusoidal" else "síntesis FM")
    case "languageSelect" => "Idioma establecido en " + (if Is(s.lang, "en-US") then "inglés" else "español")
    case "startStop" => "Navegación " + (if Is(s.state, "started") then "iniciada" else "detenida")
    case "cameraError" => "No se pudo acceder a la cámara"
    case _ => ""
  }

  /** `speak`: an error for a language without a table, nothing for an unknown id, else an utterance. */
  function Speak(language: string, elementId: string, s: SpeechState): (r: Result<Option<Utterance>>)
    ensures r.Err? <==> SpeechLanguage(language) != "en-US" && SpeechLanguage(language) != "es-ES"
    ensures r.Ok? ==> (r.value.Some? <==> Known(elementId))
    ensures r.Ok? && r.value.Some? ==> r.value.value.lang == SpeechLanguage(language)
    ensures r.Ok? && r.value.Some? ==>
      r.value.value.text == (if SpeechLanguage(language) == "en-US" then English(elementId, s) else Spanish(elementId, s))
  {
    var lang := SpeechLanguage(language);
    if lang != "en-US" && lang != "es-ES" then Err("translations[lang] is undefined")
    else
      var message := if lang == "en-US" then English(elementId, s) else Spanish(elementId, s);
      if message == "" then Ok(None) else Ok(Some(Utterance(message, lang)))
  }

  // ---------------------------------------------------------------- lemmas

  /** The settings toggle says enabled (activadas) exactly when the state field is 'on'. */
  lemma SettingsToggleWording(language: string, s: SpeechState)
    requires SpeechLanguage(language) == "en-US" || SpeechLanguage(language) == "es-ES"
    ensures var text := Speak(language, "settingsToggle", s).value.value.text;
      && (SpeechLanguage(language) == "en-US" ==> (text == "Settings enabled" <==> s.state == Some("on")))
      && (SpeechLanguage(language) == "es-ES" ==> (text == "Configuraciones activadas" <==> s.state == Some("on")))
  {
    var en1 := "Settings enabled";
    var en2 := "Settings disabled";
    assert en1 != en2 by { assert en1[9] != en2[9]; }
    var es1 := "Configuraciones activadas";
    var es2 := "Configuraciones desactivadas";
    assert es1 != es2 by { assert |es1| != |es2|; }
  }

  /** In English start/stop says "Navigation " and the state field (started when absent); in Spanish iniciada only for 'started'. */
  lemma StartStopWording(s: SpeechState)
    ensures Speak("en-US", "startStop", s) == Ok(Some(Utterance("Navigation " + OrElse(s.state, "started"), "en-US")))
    ensures Speak("es-ES", "startStop", s)
         == Ok(Some(Utterance("Navegación " + (if s.state == Some("started") then "iniciada" else "detenida"), "es-ES")))
  {
  }

  /** The unset language is English; any language with no table fails whatever the id. */
  lemma LanguageFallback(elementId: string, s: SpeechState)
    ensures Speak("", elementId, s) == Speak("en-US", elementId, s)
    ensures Speak("fr-FR", elementId, s).Err?
  {
  }
}

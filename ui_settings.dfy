/**
 * future/web/ui/ui-settings.js: the touch handlers of buttons 1, 2, 3 and 6 over the shared
 * settings. Each handler returns the events it dispatches, in order, and the speech it
 * requests. The vibration, the DOM event itself and the `catch` paths (reached only when a
 * dispatch throws) are not modelled.
 */
module UiSettings {
  import opened Wrappers
  import opened SpeechTemplates
  import opened FpsCycler
  import opened FutureState
  import opened EventDispatcher

  /** `setupUISettings`: with a button missing it logs an error and attaches nothing. */
  function SetupEvents(hasAllButtons: bool): (events: seq<Event>)
    ensures events == [] <==> hasAllButtons
  {
    if hasAllButtons then [] else [Event("logError", MessageDetail("Missing DOM elements in ui-settings"))]
  }

  /** The `updateUI` event the handlers end with. */
  function UpdateUI(s: Settings): Event {
    Event("updateUI", UIDetail(s.isSettingsMode, s.stream.Some?))
  }

  /** The frame-rate state the settings hold. */
  function FpsOf(s: Settings): Fps {
    Fps(s.autoFPS, s.updateRate)
  }

  /** The settings after a frame-rate press: only the automatic flag and the interval change. */
  function Pressed(s: Settings): (r: Settings)
    ensures FpsOf(r) == NextFps(FpsOf(s))
    ensures r.(autoFPS := s.autoFPS, updateRate := s.updateRate) == s
  {
    var next := NextFps(FpsOf(s));
    s.(autoFPS := next.autoFPS, updateRate := next.rate)
  }

  /** The `fpsBtn` request: "auto", or the rate in whole frames per second. */
  function FpsSpeech(s: Settings): SpeechRequest {
    SpeechRequest("fpsBtn", [("fps", if s.autoFPS then "auto" else NatToString(s.updateRate))])
  }

  /** Button 1: in settings mode, `startStop` with settingsMode true; otherwise nothing. */
  method Button1(st: AppState) returns (events: seq<Event>)
    ensures events == if st.settings.isSettingsMode then [Event("startStop", SettingsModeDetail(true))] else []
  {
    events := if st.settings.isSettingsMode then [Event("startStop", SettingsModeDetail(true))] else [];
  }

  /** Button 2: in settings mode, `toggleMic` with settingsMode true; otherwise nothing. */
  method Button2(st: AppState) returns (events: seq<Event>)
    ensures events == if st.settings.isSettingsMode then [Event("toggleMic", SettingsModeDetail(true))] else []
  {
    events := if st.settings.isSettingsMode then [Event("toggleMic", SettingsModeDetail(true))] else [];
  }

  /**
   * Button 3: in settings mode it only dispatches `toggleInput`; otherwise it presses the
   * frame-rate cycle, dispatches the new interval and speaks the new rate. Both end with
   * `updateUI`.
   */
  method Button3(st: AppState) returns (events: seq<Event>, speech: seq<SpeechRequest>)
    modifies st
    ensures st.frameCount == old(st.frameCount) && st.prevFrameDataLeft == old(st.prevFrameDataLeft)
    ensures st.prevFrameDataRight == old(st.prevFrameDataRight) && st.skipFrame == old(st.skipFrame)
    ensures old(st.settings).isSettingsMode ==>
      st.settings == old(st.settings) && speech == []
      && events == [Event("toggleInput", NoDetail), UpdateUI(st.settings)]
    ensures !old(st.settings).isSettingsMode ==>
      st.settings == Pressed(old(st.settings)) && speech == [FpsSpeech(st.settings)]
      && events == [Event("updateFrameInterval", IntervalDetail(st.settings.updateRate)), UpdateUI(st.settings)]
  {
    if st.settings.isSettingsMode {
      events := [Event("toggleInput", NoDetail)];
      speech := [];
    } else {
      st.settings := Pressed(st.settings);
      events := [Event("updateFrameInterval", IntervalDetail(st.settings.updateRate))];
      speech := [FpsSpeech(st.settings)];
    }
    events := events + [UpdateUI(st.settings)];
  }

  /** Button 6: flip settings mode, then `updateUI` and `toggleDebug` showing the panel exactly in settings mode. */
  method Button6(st: AppState) returns (events: seq<Event>)
    modifies st
    ensures st.settings == old(st.settings).(isSettingsMode := !old(st.settings).isSettingsMode)
    ensures st.frameCount == old(st.frameCount) && st.prevFrameDataLeft == old(st.prevFrameDataLeft)
    ensures st.prevFrameDataRight == old(st.prevFrameDataRight) && st.skipFrame == old(st.skipFrame)
    ensures events == [UpdateUI(st.settings), Event("toggleDebug", ShowDetail(st.settings.isSettingsMode))]
  {
    st.settings := st.settings.(isSettingsMode := !st.settings.isSettingsMode);
    events := [UpdateUI(st.settings), Event("toggleDebug", ShowDetail(st.settings.isSettingsMode))];
  }

  /** Outside settings mode, presses from the default settings run 20, 30, 60, automatic. */
  lemma PressesFromDefaults()
    ensures FpsOf(Pressed(Defaults())) == Fps(false, 20)
    ensures FpsOf(Pressed(Pressed(Defaults()))) == Fps(false, 30)
    ensures FpsOf(Pressed(Pressed(Pressed(Defaults())))) == Fps(false, 60)
    ensures FpsOf(Pressed(Pressed(Pressed(Pressed(Defaults()))))) == Fps(true, 60)
  {
    var s := Defaults();
    AutoCycle(FpsOf(s));
    assert Presses(FpsOf(s), 2) == Presses(NextFps(FpsOf(s)), 1);
    assert Presses(FpsOf(s), 3) == Presses(NextFps(NextFps(FpsOf(s))), 1);
    assert Presses(FpsOf(s), 4) == Presses(NextFps(NextFps(NextFps(FpsOf(s)))), 1);
  }
}

/**
 * future/web/ui/settings-handlers.js: the touch handlers of buttons 1 to 6. Buttons 1, 2, 4
 * and 5 only dispatch an event carrying the settings mode; buttons 3 and 6 have the bodies of
 * their ui-settings.js counterparts. A button the DOM lacks gets no handler, which the caller
 * reflects by not calling it.
 */
module SettingsHandlers {
  import opened Wrappers
  import opened FutureState
  import opened EventDispatcher
  import UiSettings

  /** The event buttons 1, 2, 4 and 5 dispatch, always, with the current settings mode. */
  function ModeEvent(button: nat, s: Settings): (e: Option<Event>)
    ensures e.Some? <==> button in {1, 2, 4, 5}
    ensures e.Some? ==> e.value.detail == SettingsModeDetail(s.isSettingsMode)
  {
    if button == 1 then Some(Event("startStop", SettingsModeDetail(s.isSettingsMode)))
    else if button == 2 then Some(Event("toggleAudio", SettingsModeDetail(s.isSettingsMode)))
    else if button == 4 then Some(Event("saveSettings", SettingsModeDetail(s.isSettingsMode)))
    else if button == 5 then Some(Event("loadSettings", SettingsModeDetail(s.isSettingsMode)))
    else None
  }

  /** Buttons 1, 2, 4 and 5: one event, the state untouched. */
  method DispatchOnly(button: nat, st: AppState) returns (events: seq<Event>)
    requires button in {1, 2, 4, 5}
    ensures events == [ModeEvent(button, st.settings).value]
  {
    events := [ModeEvent(button, st.settings).value];
  }

  /** Button 3: the frame-rate handler. */
  method Button3(st: AppState) returns (events: seq<Event>, speech: seq<SpeechRequest>)
    modifies st
    ensures st.frameCount == old(st.frameCount) && st.prevFrameDataLeft == old(st.prevFrameDataLeft)
    ensures st.prevFrameDataRight == old(st.prevFrameDataRight) && st.skipFrame == old(st.skipFrame)
    ensures old(st.settings).isSettingsMode ==>
      st.settings == old(st.settings) && speech == []
      && events == [Event("toggleInput", NoDetail), UiSettings.UpdateUI(st.settings)]
    ensures !old(st.settings).isSettingsMode ==>
      st.settings == UiSettings.Pressed(old(st.settings)) && speech == [UiSettings.FpsSpeech(st.settings)]
      && events == [Event("updateFrameInterval", IntervalDetail(st.settings.updateRate)), UiSettings.UpdateUI(st.settings)]
  {
    events, speech := UiSettings.Button3(st);
  }

  /** Button 6: the settings-mode toggle. */
  method Button6(st: AppState) returns (events: seq<Event>)
    modifies st
    ensures st.settings == old(st.settings).(isSettingsMode := !old(st.settings).isSettingsMode)
    ensures st.frameCount == old(st.frameCount) && st.prevFrameDataLeft == old(st.prevFrameDataLeft)
    ensures st.prevFrameDataRight == old(st.prevFrameDataRight) && st.skipFrame == old(st.skipFrame)
    ensures events == [UiSettings.UpdateUI(st.settings), Event("toggleDebug", ShowDetail(st.settings.isSettingsMode))]
  {
    events := UiSettings.Button6(st);
  }
}

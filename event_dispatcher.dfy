/**
 * future/web/ui/event-dispatcher.js: `setupEventDispatcher` keeps an error log of at most 50
 * messages, a copy of the settings the `updateSettings` event last carried, and the debug
 * panel, and returns the `dispatchEvent` the UI handlers call. The panel is represented by
 * whether it is shown and the errors its text listed when it was last refreshed; the
 * `speak` callback is recorded.
 */
module EventDispatcher {
  import opened Wrappers
  import opened SpeechTemplates
  import FutureState

  /** The most messages the error log keeps. */
  const MaxErrors: nat := 50

  /** The detail objects the handlers dispatch. */
  datatype Detail =
    | NoDetail
    | SettingsModeDetail(settingsMode: bool)
    | IntervalDetail(rate: nat)
    | UIDetail(settingsMode: bool, streamActive: bool)
    | ShowDetail(show: bool)
    | MessageDetail(message: string)
    | SettingsDetail(settings: FutureState.Settings)

  datatype Event = Event(name: string, detail: Detail)

  /** A call of the `speak` callback: the key and its parameters. */
  datatype SpeechRequest = SpeechRequest(key: string, params: seq<(string, string)>)

  /** `push` then `shift` when over 50 entries. */
  function Logged(log: seq<string>, message: string): (r: seq<string>)
    requires |log| <= MaxErrors
    ensures 1 <= |r| <= MaxErrors && r[|r| - 1] == message
  {
    var pushed := log + [message];
    if |pushed| > MaxErrors then pushed[1..] else pushed
  }

  /** The log after a run of messages, starting from `log`. */
  function LoggedAll(log: seq<string>, messages: seq<string>): (r: seq<string>)
    requires |log| <= MaxErrors
    ensures |r| <= MaxErrors
    decreases |messages|
  {
    if messages == [] then log else LoggedAll(Logged(log, messages[0]), messages[1..])
  }

  /** The message `window.onerror` logs. */
  function ErrorText(message: string, source: string, lineno: int, colno: int): string {
    message + " at " + source + ":" + IntToString(lineno) + ":" + IntToString(colno)
  }

  /** The log keeps the last min(50, n) of all messages logged, oldest first. */
  lemma {:induction false} LogKeepsNewest(all: seq<string>, messages: seq<string>)
    requires |all| <= MaxErrors
    ensures var whole := all + messages;
      var keep := if |whole| < MaxErrors then |whole| else MaxErrors;
      LoggedAll(all, messages) == whole[|whole| - keep..]
    decreases |messages|
  {
    if messages == [] {
      assert all + messages == all;
    } else {
      var next := Logged(all, messages[0]);
      LogKeepsNewest(next, messages[1..]);
      var whole := all + messages;
      var whole' := next + messages[1..];
      assert whole == (all + [messages[0]]) + messages[1..];
      if |all + [messages[0]]| > MaxErrors {
        assert whole' == whole[1..];
      } else {
        assert whole' == whole;
      }
    }
  }

  /**
   * The `message` that `logError` destructures from a detail: None when the detail object
   * has no such field, so the destructured value is `undefined`.
   */
  function MessageOf(d: Detail): (m: Option<string>)
    ensures m.Some? <==> d.MessageDetail?
    ensures d.MessageDetail? ==> m == Some(d.message)
  {
    if d.MessageDetail? then Some(d.message) else None
  }

  /** A log entry as `errorLog.join` prints it: `undefined` prints as the empty string. */
  function Joined(m: Option<string>): (t: string)
    ensures m.Some? ==> t == m.value
    ensures m.None? ==> t == ""
  {
    if m.Some? then m.value else ""
  }

  /** A message as `replace` substitutes it into the spoken template: `undefined` becomes "undefined". */
  function Substituted(m: Option<string>): (t: string)
    ensures m.Some? ==> t == m.value
    ensures m.None? ==> t == "undefined"
  {
    if m.Some? then m.value else "undefined"
  }

  /** The `show` that `toggleDebug` destructures: `undefined` (falsy) when the field is missing. */
  function ShowOf(d: Detail): (show: bool)
    ensures show <==> d.ShowDetail? && d.show
  {
    d.ShowDetail? && d.show
  }

  /** Destructuring `{ message }` or `{ show }` throws a TypeError exactly on an undefined detail. */
  predicate Destructures(d: Detail) {
    !d.NoDetail?
  }

  class Dispatcher {
    /** `errorLog`, each entry as `join` prints it. */
    var errorLog: seq<string>
    /**
     * The settings copy: None for the initial `{}`, otherwise the detail the last
     * `updateSettings` event carried, whatever it is.
     */
    var settings: Option<Detail>
    var debugShown: bool
    /** The errors the debug text listed when the panel was last refreshed. */
    var debugErrors: seq<string>
    var spoken: seq<SpeechRequest>

    ghost predicate Valid()
      reads this
    {
      |errorLog| <= MaxErrors
    }

    /** `setupEventDispatcher`: an empty log and an empty settings copy. */
    constructor ()
      ensures Valid()
      ensures errorLog == [] && settings.None? && !debugShown && debugErrors == [] && spoken == []
    {
      errorLog := [];
      settings := None;
      debugShown := false;
      debugErrors := [];
      spoken := [];
    }

    /** `toggleDebug({ show })`: refresh the panel text and show or hide it. */
    method ToggleDebug(show: bool)
      modifies this
      ensures debugShown == show && debugErrors == errorLog
      ensures errorLog == old(errorLog) && settings == old(settings) && spoken == old(spoken)
    {
      debugErrors := errorLog;
      debugShown := show;
    }

    /**
     * `logError({ message })`: log it, keeping the newest 50, show the panel and speak the
     * error. None stands for an undefined message.
     */
    method LogError(message: Option<string>)
      requires Valid()
      modifies this
      ensures Valid()
      ensures errorLog == Logged(old(errorLog), Joined(message))
      ensures debugShown && debugErrors == errorLog && settings == old(settings)
      ensures spoken == old(spoken) + [SpeechRequest("error", [("message", Substituted(message))])]
    {
      var pushed := errorLog + [Joined(message)];
      errorLog := if |pushed| > MaxErrors then pushed[1..] else pushed;
      ToggleDebug(true);
      spoken := spoken + [SpeechRequest("error", [("message", Substituted(message))])];
    }

    /** `window.onerror`: log "message at source:line:col" and report the error handled. */
    method OnError(message: string, source: string, lineno: int, colno: int) returns (handled: bool)
      requires Valid()
      modifies this
      ensures Valid() && handled
      ensures errorLog == Logged(old(errorLog), ErrorText(message, source, lineno, colno))
      ensures debugShown && debugErrors == errorLog && settings == old(settings)
      ensures spoken == old(spoken) + [SpeechRequest("error", [("message", ErrorText(message, source, lineno, colno))])]
    {
      LogError(Some(ErrorText(message, source, lineno, colno)));
      handled := true;
    }

    /**
     * `dispatchEvent(name, detail)`: the document's `updateSettings` listener stores the
     * detail as the settings copy; then 'logError' logs the detail's message and 'toggleDebug'
     * toggles the panel, and no other event touches the log, the panel or the speech. For
     * those two names an undefined detail makes the destructuring throw (`threw`), after
     * the listeners and before anything else changes.
     */
    method DispatchEvent(e: Event) returns (threw: bool)
      requires Valid()
      modifies this
      ensures Valid()
      ensures threw <==> (e.name == "logError" || e.name == "toggleDebug") && !Destructures(e.detail)
      ensures settings == (if e.name == "updateSettings" then Some(e.detail) else old(settings))
      ensures threw || (e.name != "logError" && e.name != "toggleDebug") ==>
        errorLog == old(errorLog) && debugShown == old(debugShown) && debugErrors == old(debugErrors) && spoken == old(spoken)
      ensures e.name == "logError" && !threw ==>
        && errorLog == Logged(old(errorLog), Joined(MessageOf(e.detail)))
        && debugShown && debugErrors == errorLog
        && spoken == old(spoken) + [SpeechRequest("error", [("message", Substituted(MessageOf(e.detail)))])]
      ensures e.name == "toggleDebug" && !threw ==>
        && errorLog == old(errorLog) && debugShown == ShowOf(e.detail) && debugErrors == errorLog
        && spoken == old(spoken)
    {
      if e.name == "updateSettings" {
        settings := Some(e.detail);
      }
      threw := false;
      if e.name == "logError" || e.name == "toggleDebug" {
        if !Destructures(e.detail) {
          return true;
        }
      }
      if e.name == "logError" {
        LogError(MessageOf(e.detail));
      } else if e.name == "toggleDebug" {
        ToggleDebug(ShowOf(e.detail));
      }
    }
  }
}

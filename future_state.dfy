/**
 * future/web/state.js: the shared `settings` object with its defaults (the first entries of
 * the grid, engine and language lists of future/web/config.js) and the module variables of
 * the frame loop, with one setter each. `updateInterval` is held as the frame rate whose
 * interval 1000/rate it stores; a media stream is an opaque handle.
 */
module FutureState {
  import opened Wrappers

  /** A media stream handle. */
  datatype Stream = Stream(id: nat)

  datatype Settings = Settings(
    gridType: string,
    synthesisEngine: string,
    language: string,
    isSettingsMode: bool,
    stream: Option<Stream>,
    micStream: Option<Stream>,
    autoFPS: bool,
    /** The rate r whose interval 1000 / r ms `updateInterval` holds. */
    updateRate: nat,
    audioInterval: Option<nat>,
    dayNightMode: string)

  /** The ids of `availableGrids`, `availableEngines` and `availableLanguages`, in order. */
  const AvailableGrids: seq<string> := ["circle-of-fifths", "hex-tonnetz"]
  const AvailableEngines: seq<string> := ["sine-wave", "fm-synthesis"]
  const AvailableLanguages: seq<string> := ["en-US", "es-ES"]

  /** The initial settings: the first grid, engine and language, outside settings mode, automatic 30 fps, day mode. */
  function Defaults(): (s: Settings)
    ensures s.gridType == AvailableGrids[0] && s.synthesisEngine == AvailableEngines[0] && s.language == AvailableLanguages[0]
    ensures !s.isSettingsMode && s.stream.None? && s.micStream.None? && s.audioInterval.None?
    ensures s.autoFPS && s.updateRate == 30 && s.dayNightMode == "day"
  {
    Settings(AvailableGrids[0], AvailableEngines[0], AvailableLanguages[0], false, None, None, true, 30, None, "day")
  }

  class AppState {
    var settings: Settings
    var frameCount: int
    var prevFrameDataLeft: Option<seq<int>>
    var prevFrameDataRight: Option<seq<int>>
    var skipFrame: bool

    /** The module's initial state. */
    constructor ()
      ensures settings == Defaults()
      ensures frameCount == 0 && prevFrameDataLeft.None? && prevFrameDataRight.None? && !skipFrame
    {
      settings := Defaults();
      frameCount := 0;
      prevFrameDataLeft := None;
      prevFrameDataRight := None;
      skipFrame := false;
    }

    /** `setStream`: only `settings.stream` changes. */
    method SetStream(stream: Option<Stream>)
      modifies this
      ensures settings == old(settings).(stream := stream)
      ensures frameCount == old(frameCount) && prevFrameDataLeft == old(prevFrameDataLeft)
      ensures prevFrameDataRight == old(prevFrameDataRight) && skipFrame == old(skipFrame)
    {
      settings := settings.(stream := stream);
    }

    /** `setAudioInterval`: only `settings.audioInterval` changes. */
    method SetAudioInterval(interval: Option<nat>)
      modifies this
      ensures settings == old(settings).(audioInterval := interval)
      ensures frameCount == old(frameCount) && prevFrameDataLeft == old(prevFrameDataLeft)
      ensures prevFrameDataRight == old(prevFrameDataRight) && skipFrame == old(skipFrame)
    {
      settings := settings.(audioInterval := interval);
    }

    /** `setFrameCount`. */
    method SetFrameCount(count: int)
      modifies this
      ensures frameCount == count
      ensures settings == old(settings) && prevFrameDataLeft == old(prevFrameDataLeft)
      ensures prevFrameDataRight == old(prevFrameDataRight) && skipFrame == old(skipFrame)
    {
      frameCount := count;
    }

    /** `setPrevFrameDataLeft`. */
    method SetPrevFrameDataLeft(data: Option<seq<int>>)
      modifies this
      ensures prevFrameDataLeft == data
      ensures settings == old(settings) && frameCount == old(frameCount)
      ensures prevFrameDataRight == old(prevFrameDataRight) && skipFrame == old(skipFrame)
    {
      prevFrameDataLeft := data;
    }

    /** `setPrevFrameDataRight`. */
    method SetPrevFrameDataRight(data: Option<seq<int>>)
      modifies this
      ensures prevFrameDataRight == data
      ensures settings == old(settings) && frameCount == old(frameCount)
      ensures prevFrameDataLeft == old(prevFrameDataLeft) && skipFrame == old(skipFrame)
    {
      prevFrameDataRight := data;
    }

    /** `setSkipFrame`. */
    method SetSkipFrame(value: bool)
      modifies this
      ensures skipFrame == value
      ensures settings == old(settings) && frameCount == old(frameCount)
      ensures prevFrameDataLeft == old(prevFrameDataLeft) && prevFrameDataRight == old(prevFrameDataRight)
    {
      skipFrame := value;
    }
  }
}

/**
 * future/web/audio-processor.js: the module-level audio context, the initialised flag and
 * the oscillator records, with the lifecycle operations around them. `playAudio` splits the
 * frame, maps each half through the grid dispatcher and hands all notes to the engine the
 * settings name. Speech and the `logError` events it raises are recorded in logs. The
 * ./grid-dispatcher.js it imports is not part of this model; GridDispatcher, the model of
 * web/grid-dispatcher.js, stands in for it.
 */
module FutureAudioProcessor {
  import opened Wrappers
  import opened Oscillators
  import opened SoundMaps
  import opened GridNotes
  import opened FrameSplit
  import opened StableSort
  import opened SpeechTemplates
  import HexTonnetz
  import GridDispatcher
  import SineWaveEngine
  import FMEngine

  /** The number of oscillator records `initializeAudio` creates. */
  const OscillatorCount: nat := 24

  /** The settings `playAudio` and the speech read. */
  datatype Settings = Settings(gridType: string, synthesisEngine: string, language: string, dayNightMode: string)

  /** The state name a template literal shows. */
  function StateName(s: ContextState): string {
    match s
    case Running => "running"
    case Suspended => "suspended"
    case Closed => "closed"
  }

  /** The `logError` message raised when the context does not run after the resume attempt. */
  function InitError(s: ContextState): string {
    "Audio init error: AudioContext is not running, state: " + StateName(s)
  }

  /** A suspended context is resumed; any other keeps its state. */
  function Resumed(c: AudioContext): (r: AudioContext)
    ensures r.state.Running? <==> !c.state.Closed?
  {
    if c.state == Suspended then AudioContext(Running) else c
  }

  /** The left and right halves `playAudio` maps, as one pair. */
  function Halves(frameData: seq<int>, width: nat, height: nat): (halves: (seq<int>, seq<int>))
    requires |frameData| == width * height && width % 2 == 0
    ensures |halves.0| == (width / 2) * height && |halves.1| == (width / 2) * height
  {
    (HalfRows(frameData, width, height, 0, width / 2, height), HalfRows(frameData, width, height, width / 2, width / 2, height))
  }

  /** The oscillators an engine leaves after sorting the notes. */
  function EngineResult(engine: Engine, oscs: seq<Osc>, notes: seq<Note>): (r: seq<Osc>)
    ensures |r| == |oscs|
  {
    var sorted := SortDesc(notes, ByIntensity);
    match engine
    case FMSynthesisEngine => FMEngine.Loop(oscs, sorted, |oscs|).oscs
    case SineWaveEngine => SineWaveEngine.Loop(oscs, sorted, |oscs|).oscs
  }

  /** The call of the selected engine's play function. */
  method PlayWith(engine: Engine, allNotes: seq<Note>, oscillators: array<Osc>)
    modifies oscillators
    ensures oscillators[..] == EngineResult(engine, old(oscillators[..]), allNotes)
  {
    match engine
    case FMSynthesisEngine =>
      var _, _ := FMEngine.PlayFMSynthesis(allNotes, oscillators);
    case SineWaveEngine =>
      var _ := SineWaveEngine.PlaySineWave(allNotes, oscillators);
  }

  class AudioProcessor {
    var audioContext: Option<AudioContext>
    var isAudioInitialized: bool
    var oscillators: array<Osc>
    /** The utterances handed to speech synthesis. */
    var spoken: seq<Utterance>
    /** The messages of the `logError` events dispatched. */
    var errors: seq<string>

    /** Initialised means a context is held and the 24 records exist. */
    ghost predicate Valid()
      reads this
    {
      isAudioInitialized ==> audioContext.Some? && oscillators.Length == OscillatorCount
    }

    /** The module's initial state: no context, not initialised, no oscillators. */
    constructor ()
      ensures Valid()
      ensures audioContext == None && !isAudioInitialized && oscillators.Length == 0
      ensures spoken == [] && errors == []
    {
      audioContext := None;
      isAudioInitialized := false;
      oscillators := new Osc[0];
      spoken := [];
      errors := [];
    }

    /** `setAudioContext`: store the context and clear the flag. */
    method SetAudioContext(newContext: Option<AudioContext>)
      modifies this
      ensures Valid()
      ensures audioContext == newContext && !isAudioInitialized
      ensures oscillators == old(oscillators) && spoken == old(spoken) && errors == old(errors)
    {
      audioContext := newContext;
      isAudioInitialized := false;
    }

    /**
     * `initializeAudio`: refused (false, nothing changes) when already initialised or without a
     * context. Otherwise a suspended context is resumed; a context that then does not run is an
     * error that leaves no context and the flag false, and a running one gets 24 fresh silent
     * records and the flag set.
     */
    method InitializeAudio(context: Option<AudioContext>, language: string) returns (ok: bool)
      requires Valid()
      modifies this
      ensures Valid()
      ensures old(isAudioInitialized) || context.None? ==>
        !ok && audioContext == old(audioContext) && isAudioInitialized == old(isAudioInitialized)
        && oscillators == old(oscillators) && spoken == old(spoken) && errors == old(errors)
      ensures !old(isAudioInitialized) && context.Some? && Resumed(context.value).state != Running ==>
        !ok && audioContext == None && !isAudioInitialized && oscillators == old(oscillators)
        && errors == old(errors) + [InitError(Resumed(context.value).state)]
        && spoken == old(spoken) + [Utterance("Failed to initialize audio", SpeechLanguage(language))]
      ensures !old(isAudioInitialized) && context.Some? && Resumed(context.value).state == Running ==>
        ok && audioContext == Some(AudioContext(Running)) && isAudioInitialized
        && fresh(oscillators) && oscillators[..] == seq(OscillatorCount, _ => InitialOsc)
        && errors == old(errors) && spoken == old(spoken) + [Utterance("Audio initialized", SpeechLanguage(language))]
    {
      if isAudioInitialized || context.None? {
        return false;
      }
      audioContext := Some(Resumed(context.value));
      if audioContext.value.state != Running {
        errors := errors + [InitError(audioContext.value.state)];
        isAudioInitialized := false;
        audioContext := None;
        spoken := spoken + [Utterance("Failed to initialize audio", SpeechLanguage(language))];
        return false;
      }
      oscillators := new Osc[OscillatorCount](_ => InitialOsc);
      isAudioInitialized := true;
      spoken := spoken + [Utterance("Audio initialized", SpeechLanguage(language))];
      ok := true;
    }

    /**
     * `playAudio`: without an initialised, running context the previous frames come back and
     * nothing changes. Otherwise the halves are mapped with pan -1 and +1, the concatenated
     * notes go to the engine the settings select (sine-wave when no engine has that id), and
     * the halves come back as the next previous frames.
     */
    method PlayAudio(frameData: seq<int>, width: nat, height: nat,
                     prevFrameDataLeft: Option<seq<int>>, prevFrameDataRight: Option<seq<int>>,
                     settings: Settings, hexGrid: array2<int>, frequencies: seq<int>)
      returns (nextLeft: Option<seq<int>>, nextRight: Option<seq<int>>, allNotes: seq<Note>)
      requires Valid()
      requires |frameData| == width * height && width % 2 == 0
      requires prevFrameDataLeft.Some? ==> |prevFrameDataLeft.value| == (width / 2) * height
      requires prevFrameDataRight.Some? ==> |prevFrameDataRight.value| == (width / 2) * height
      requires HexTonnetz.IsHexGrid(hexGrid) && IsTable(frequencies)
      modifies oscillators
      ensures Valid()
      ensures !(isAudioInitialized && audioContext.Some? && audioContext.value.state == Running) ==>
        nextLeft == prevFrameDataLeft && nextRight == prevFrameDataRight && allNotes == []
        && oscillators[..] == old(oscillators[..])
      ensures isAudioInitialized && audioContext.Some? && audioContext.value.state == Running ==>
        var halves := Halves(frameData, width, height);
        && nextLeft == Some(halves.0) && nextRight == Some(halves.1)
        && allNotes == GridDispatcher.MappedNotes(settings.gridType, halves.0, width / 2, height, prevFrameDataLeft, -1.0, settings.dayNightMode)
                     + GridDispatcher.MappedNotes(settings.gridType, halves.1, width / 2, height, prevFrameDataRight, 1.0, settings.dayNightMode)
        && oscillators[..] == EngineResult(SelectEngine(settings.synthesisEngine), old(oscillators[..]), allNotes)
    {
      if !(isAudioInitialized && audioContext.Some? && audioContext.value.state == Running) {
        return prevFrameDataLeft, prevFrameDataRight, [];
      }
      var leftFrame, rightFrame := SplitFrame(frameData, width, height);
      var leftResult := GridDispatcher.MapFrame(settings.gridType, leftFrame, width / 2, height, prevFrameDataLeft,
                                                -1.0, settings.dayNightMode, hexGrid, frequencies);
      var rightResult := GridDispatcher.MapFrame(settings.gridType, rightFrame, width / 2, height, prevFrameDataRight,
                                                 1.0, settings.dayNightMode, hexGrid, frequencies);
      allNotes := leftResult.notes + rightResult.notes;
      PlayWith(SelectEngine(settings.synthesisEngine), allNotes, oscillators);
      nextLeft, nextRight := Some(leftResult.newFrameData), Some(rightResult.newFrameData);
    }

    /**
     * `cleanupAudio`: a no-op unless initialised with a context; otherwise every record's gain is
     * set to 0 before it is stopped, and the records, the flag and the context are dropped.
     */
    method CleanupAudio()
      requires Valid()
      modifies this, oscillators
      ensures Valid()
      ensures spoken == old(spoken) && errors == old(errors)
      ensures !(old(isAudioInitialized) && old(audioContext).Some?) ==>
        audioContext == old(audioContext) && isAudioInitialized == old(isAudioInitialized)
        && oscillators == old(oscillators) && oscillators[..] == old(oscillators[..])
      ensures old(isAudioInitialized) && old(audioContext).Some? ==>
        audioContext == None && !isAudioInitialized && oscillators.Length == 0
        && old(oscillators).Length == old(oscillators.Length)
        && forall j :: 0 <= j < old(oscillators).Length ==> old(oscillators)[j] == old(oscillators[j]).(gain := 0.0)
    {
      if !(isAudioInitialized && audioContext.Some?) {
        return;
      }
      var j := 0;
      while j < oscillators.Length
        invariant oscillators == old(oscillators) && spoken == old(spoken) && errors == old(errors)
        invariant 0 <= j <= oscillators.Length
        invariant forall k :: 0 <= k < j ==> oscillators[k] == old(oscillators[k]).(gain := 0.0)
        invariant forall k :: j <= k < oscillators.Length ==> oscillators[k] == old(oscillators[k])
      {
        oscillators[j] := oscillators[j].(gain := 0.0);
        j := j + 1;
      }
      oscillators := new Osc[0];
      isAudioInitialized := false;
      audioContext := None;
    }

    /** `stopAudio`: `cleanupAudio`. */
    method StopAudio()
      requires Valid()
      modifies this, oscillators
      ensures Valid()
      ensures spoken == old(spoken) && errors == old(errors)
      ensures !(old(isAudioInitialized) && old(audioContext).Some?) ==>
        audioContext == old(audioContext) && isAudioInitialized == old(isAudioInitialized) && oscillators == old(oscillators)
      ensures old(isAudioInitialized) && old(audioContext).Some? ==>
        audioContext == None && !isAudioInitialized && oscillators.Length == 0
    {
      CleanupAudio();
    }
  }

  /**
   * Without a previous frame on either side no region moves, so whatever the engine, every
   * oscillator `playAudio` schedules ends inactive with gain target 0.
   */
  lemma FirstFrameSilent(engine: Engine, oscs: seq<Osc>, gridType: string, frameData: seq<int>, width: nat, height: nat,
                         dayNightMode: string, j: nat)
    requires |frameData| == width * height && width % 2 == 0 && j < |oscs|
    ensures var halves := Halves(frameData, width, height);
      var notes := GridDispatcher.MappedNotes(gridType, halves.0, width / 2, height, None, -1.0, dayNightMode)
                   + GridDispatcher.MappedNotes(gridType, halves.1, width / 2, height, None, 1.0, dayNightMode);
      && notes == []
      && !EngineResult(engine, oscs, notes)[j].active && EngineResult(engine, oscs, notes)[j].gain == 0.0
  {
    var halves := Halves(frameData, width, height);
    GridDispatcher.DispatchBounds(gridType, halves.0, width / 2, height, None);
    GridDispatcher.DispatchBounds(gridType, halves.1, width / 2, height, None);
    var notes := GridDispatcher.MappedNotes(gridType, halves.0, width / 2, height, None, -1.0, dayNightMode)
                 + GridDispatcher.MappedNotes(gridType, halves.1, width / 2, height, None, 1.0, dayNightMode);
    assert notes == [];
    assert SortDesc(notes, ByIntensity) == [];
    match engine
    case FMSynthesisEngine => FMEngine.FinalOscillators(oscs, [], j);
    case SineWaveEngine => SineWaveEngine.FinalOscillators(oscs, [], j);
  }
}

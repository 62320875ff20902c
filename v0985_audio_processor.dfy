/**
 * past/web/v0.9.8.5/web/audio-processor.js: `initializeAudio` resumes a suspended context and
 * pushes 32 silent oscillator records; `playAudio` splits the frame, maps both halves and
 * switches on the engine name. The three modules it imports from beside it, ./grid-dispatcher.js
 * and ./synthesis-methods/engines/{sine-wave,fm-synthesis}.js, are not part of this model:
 * the notes handed to its sine engine are recorded, GridDispatcher (web/grid-dispatcher.js)
 * stands in for its grid dispatcher, and LegacyFMEngine (the FM engine under web/ui/ of that
 * version) stands in for its FM engine.
 */
module V0985AudioProcessor {
  import opened Wrappers
  import opened Oscillators
  import opened SoundMaps
  import opened GridNotes
  import opened FrameSplit
  import opened StableSort
  import opened SpeechTemplates
  import HexTonnetz
  import GridDispatcher
  import LegacyFMEngine

  /** The number of records each successful `initializeAudio` pushes. */
  const OscillatorBatch: nat := 32

  /** A suspended context is resumed; any other keeps its state. */
  function Resumed(c: AudioContext): (r: AudioContext)
    ensures r.state.Running? <==> !c.state.Closed?
    ensures r.state.Closed? <==> c.state.Closed?
  {
    if c.state == Suspended then AudioContext(Running) else c
  }

  /** The switch on `settings.synthesisEngine`: exactly "fm-synthesis" selects FM, everything else the sine engine. */
  function PlaysFM(synthesisEngine: string): (fm: bool)
    ensures fm <==> synthesisEngine == "fm-synthesis"
  {
    match synthesisEngine
    case "fm-synthesis" => true
    case _ => false
  }

  class AudioProcessor {
    var audioContext: Option<AudioContext>
    var isAudioInitialized: bool
    var oscillators: array<Osc>
    /** The utterances handed to speech synthesis. */
    var spoken: seq<Utterance>
    /** The notes handed to the sine engine, one entry per call. */
    var sineCalls: seq<seq<Note>>

    /** The module's initial state. */
    constructor ()
      ensures audioContext == None && !isAudioInitialized && oscillators.Length == 0
      ensures spoken == [] && sineCalls == []
    {
      audioContext := None;
      isAudioInitialized := false;
      oscillators := new Osc[0];
      spoken := [];
      sineCalls := [];
    }

    /**
     * `initializeAudio`: nothing happens when already initialised or without a context.
     * Otherwise the context is kept (resumed when suspended; its state is not checked
     * further), 32 silent records are appended to the existing ones and the flag is set.
     */
    method InitializeAudio(context: Option<AudioContext>, language: string)
      modifies this
      ensures old(isAudioInitialized) || context.None? ==>
        audioContext == old(audioContext) && isAudioInitialized == old(isAudioInitialized)
        && oscillators == old(oscillators) && spoken == old(spoken) && sineCalls == old(sineCalls)
      ensures !old(isAudioInitialized) && context.Some? ==>
        && audioContext == Some(Resumed(context.value)) && isAudioInitialized
        && fresh(oscillators) && oscillators[..] == old(oscillators[..]) + seq(OscillatorBatch, _ => InitialOsc)
        && spoken == old(spoken) + [Utterance("Audio initialized", SpeechLanguage(language))]
        && sineCalls == old(sineCalls)
    {
      if isAudioInitialized || context.None? {
        return;
      }
      audioContext := Some(Resumed(context.value));
      oscillators := Pushed(oscillators);
      isAudioInitialized := true;
      spoken := spoken + [Utterance("Audio initialized", SpeechLanguage(language))];
    }

    /**
     * `playAudio`: without the flag the previous frames come back and nothing changes.
     * Otherwise both halves are mapped (pan -1 and +1), their frames come back as the next
     * previous frames, and the concatenated notes go to the FM engine on "fm-synthesis" and to
     * the sine engine on anything else.
     */
    method PlayAudio(frameData: seq<int>, width: nat, height: nat,
                     prevFrameDataLeft: Option<seq<int>>, prevFrameDataRight: Option<seq<int>>,
                     gridType: string, synthesisEngine: string, dayNightMode: string,
                     hexGrid: array2<int>, frequencies: seq<int>)
      returns (nextLeft: Option<seq<int>>, nextRight: Option<seq<int>>)
      requires |frameData| == width * height && width % 2 == 0
      requires prevFrameDataLeft.Some? ==> |prevFrameDataLeft.value| == (width / 2) * height
      requires prevFrameDataRight.Some? ==> |prevFrameDataRight.value| == (width / 2) * height
      requires HexTonnetz.IsHexGrid(hexGrid) && IsTable(frequencies)
      modifies this, oscillators
      ensures audioContext == old(audioContext) && isAudioInitialized == old(isAudioInitialized)
      ensures oscillators == old(oscillators) && spoken == old(spoken)
      ensures !isAudioInitialized ==>
        nextLeft == prevFrameDataLeft && nextRight == prevFrameDataRight
        && oscillators[..] == old(oscillators[..]) && sineCalls == old(sineCalls)
      ensures isAudioInitialized ==>
        var left := HalfRows(frameData, width, height, 0, width / 2, height);
        var right := HalfRows(frameData, width, height, width / 2, width / 2, height);
        var allNotes := GridDispatcher.MappedNotes(gridType, left, width / 2, height, prevFrameDataLeft, -1.0, dayNightMode)
                        + GridDispatcher.MappedNotes(gridType, right, width / 2, height, prevFrameDataRight, 1.0, dayNightMode);
        && nextLeft == Some(left) && nextRight == Some(right)
        && (PlaysFM(synthesisEngine) ==>
              sineCalls == old(sineCalls)
              && oscillators[..] == LegacyFMEngine.Loop(old(oscillators[..]), SortDesc(allNotes, ByIntensity), oscillators.Length).oscs)
        && (!PlaysFM(synthesisEngine) ==> sineCalls == old(sineCalls) + [allNotes] && oscillators[..] == old(oscillators[..]))
    {
      if !isAudioInitialized {
        return prevFrameDataLeft, prevFrameDataRight;
      }
      var leftFrame, rightFrame := SplitFrame(frameData, width, height);
      var leftResult := GridDispatcher.MapFrame(gridType, leftFrame, width / 2, height, prevFrameDataLeft,
                                                -1.0, dayNightMode, hexGrid, frequencies);
      var rightResult := GridDispatcher.MapFrame(gridType, rightFrame, width / 2, height, prevFrameDataRight,
                                                 1.0, dayNightMode, hexGrid, frequencies);
      nextLeft, nextRight := Some(leftResult.newFrameData), Some(rightResult.newFrameData);
      var allNotes := leftResult.notes + rightResult.notes;
      if PlaysFM(synthesisEngine) {
        var _, _ := LegacyFMEngine.PlayFMSynthesis(allNotes, oscillators);
      } else {
        sineCalls := sineCalls + [allNotes];
      }
    }
  }

  /** The 32 `oscillators.push` calls: a new array holding the old records followed by 32 silent ones. */
  method Pushed(oscillators: array<Osc>) returns (grown: array<Osc>)
    ensures fresh(grown)
    ensures grown[..] == oscillators[..] + seq(OscillatorBatch, _ => InitialOsc)
  {
    grown := new Osc[oscillators.Length + OscillatorBatch](_ => InitialOsc);
    var j := 0;
    while j < oscillators.Length
      invariant 0 <= j <= oscillators.Length
      invariant forall k :: 0 <= k < j ==> grown[k] == oscillators[k]
      invariant forall k :: oscillators.Length <= k < grown.Length ==> grown[k] == InitialOsc
    {
      grown[j] := oscillators[j];
      j := j + 1;
    }
    assert grown[..] == oscillators[..] + seq(OscillatorBatch, _ => InitialOsc);
  }

  /**
   * The FM branch voices the notes loudest first: oscillator j is active exactly when there
   * are more than j notes, and among the voiced oscillators gains never increase with the index.
   */
  lemma FMLoudestFirst(oscs: seq<Osc>, notes: seq<Note>, j: nat, k: nat)
    requires j < k < |oscs|
    ensures var final := LegacyFMEngine.Loop(oscs, SortDesc(notes, ByIntensity), |oscs|).oscs;
      && (final[j].active <==> j < |notes|)
      && (k < |notes| ==> final[j].gain >= final[k].gain)
  {
    var sorted := SortDesc(notes, ByIntensity);
    LegacyFMEngine.FinalOscillators(oscs, sorted, j);
    LegacyFMEngine.FinalOscillators(oscs, sorted, k);
    if k < |notes| {
      SortDescIsDescending(notes, ByIntensity);
      assert ByIntensity(sorted[j]) >= ByIntensity(sorted[k]);
    }
  }
}

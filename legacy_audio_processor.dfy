/**
 * past/web/v0.9.8.0/audio-processor.js: the same processor with a 200-600 Hz tuning, in
 * which every frame first stops what is playing (suspending a running context) and then
 * keeps only its own source and gain stage.
 */
module LegacyAudioProcessor {
  import opened Wrappers
  import opened SoundMaps

  class AudioProcessor {
    var audioContext: Option<AudioContext>
    var activeNodes: seq<Node>
    /** The nodes `stop()` and `disconnect()` were called on, oldest first. */
    var stopped: seq<Node>

    /** At most one source and its gain stage are active. */
    ghost predicate Valid()
      reads this
    {
      activeNodes == [] || (|activeNodes| == 2 && activeNodes[0].SourceNode? && activeNodes[1] == GainNode(0.5))
    }

    constructor()
      ensures Valid()
      ensures audioContext == None && activeNodes == [] && stopped == []
    {
      audioContext := None;
      activeNodes := [];
      stopped := [];
    }

    method InitializeAudio(context: Option<AudioContext>)
      requires Valid()
      modifies this
      ensures Valid()
      ensures audioContext == context && activeNodes == old(activeNodes) && stopped == old(stopped)
    {
      audioContext := context;
    }

    /** `stopAudio`: the active nodes are stopped and dropped; a running context is suspended, any other left as it is. */
    method StopAudio()
      requires Valid()
      modifies this
      ensures Valid()
      ensures activeNodes == [] && stopped == old(stopped) + old(activeNodes)
      ensures audioContext == if old(audioContext).Some? && old(audioContext).value.state == Running
                              then Some(AudioContext(Suspended)) else old(audioContext)
    {
      var i := 0;
      while i < |activeNodes|
        invariant 0 <= i <= |activeNodes|
        invariant activeNodes == old(activeNodes) && audioContext == old(audioContext)
        invariant stopped == old(stopped) + activeNodes[..i]
      {
        stopped := stopped + [activeNodes[i]];
        i := i + 1;
      }
      assert activeNodes[..i] == activeNodes;
      activeNodes := [];
      if audioContext.Some? && audioContext.value.state == Running {
        audioContext := Some(AudioContext(Suspended));
      }
    }

    /**
     * `playAudio`: without a context nothing happens; otherwise `stopAudio` runs first and the
     * active nodes become exactly the new source and its gain stage. The previous frames come
     * back unchanged either way.
     */
    method PlayAudio<F>(data: seq<int>, width: int, height: int, prevLeft: F, prevRight: F,
                        gridType: string, synthesisEngine: string)
      returns (prevFrameDataLeft: F, prevFrameDataRight: F)
      requires Valid()
      modifies this
      ensures Valid()
      ensures prevFrameDataLeft == prevLeft && prevFrameDataRight == prevRight
      ensures old(audioContext).None? ==> audioContext == None && activeNodes == old(activeNodes) && stopped == old(stopped)
      ensures old(audioContext).Some? ==>
        && stopped == old(stopped) + old(activeNodes)
        && audioContext == Some(if old(audioContext).value.state == Running then AudioContext(Suspended) else old(audioContext).value)
        && activeNodes == [SourceNode(Played(LegacyTuning, gridType, synthesisEngine, data)), GainNode(0.5)]
    {
      if audioContext.None? {
        return prevLeft, prevRight;
      }
      StopAudio();
      var mapFn := SelectGrid(gridType);
      var createSoundFn := SelectEngine(synthesisEngine);
      var mappedData := MapWith(mapFn, data);
      var sourceNode := SourceNode(SoundWith(createSoundFn, LegacyTuning, mappedData));
      var gainNode := GainNode(0.5);
      activeNodes := [sourceNode, gainNode];
      return prevLeft, prevRight;
    }
  }
}

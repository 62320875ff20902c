/**
 * web/audio-processor.js: a module-level audio context and the list of nodes started so
 * far. Every frame played starts one source node through a 0.5 gain stage and keeps both
 * for `stopAudio`; nothing is stopped between frames, and `stopAudio` stops only the
 * sources, since a gain stage has no `stop`.
 */
module WebAudioProcessor {
  import opened Wrappers
  import opened SoundMaps

  /** The nodes come in (source, gain 0.5) pairs, in the order they were started. */
  ghost predicate Paired(nodes: seq<Node>) {
    |nodes| % 2 == 0 &&
    forall i :: 0 <= i < |nodes| ==> (if i % 2 == 0 then nodes[i].SourceNode? else nodes[i] == GainNode(0.5))
  }

  lemma PairedAppend(nodes: seq<Node>, s: Sound)
    requires Paired(nodes)
    ensures Paired(nodes + [SourceNode(s), GainNode(0.5)])
  {
    var n := nodes + [SourceNode(s), GainNode(0.5)];
    forall i | 0 <= i < |n|
      ensures if i % 2 == 0 then n[i].SourceNode? else n[i] == GainNode(0.5)
    {
      if i >= |nodes| {
        assert i == |nodes| || i == |nodes| + 1;
      }
    }
  }

  /** The nodes that have a `stop` method (the sources), in order. */
  function Stoppable(nodes: seq<Node>): (r: seq<Node>)
    ensures |r| <= |nodes|
    ensures forall k :: 0 <= k < |r| ==> r[k].SourceNode?
  {
    if nodes == [] then []
    else Stoppable(nodes[..|nodes| - 1]) + (if nodes[|nodes| - 1].SourceNode? then [nodes[|nodes| - 1]] else [])
  }

  /** The nodes without a `stop` method (the gain stages), in order. */
  function Unstoppable(nodes: seq<Node>): (r: seq<Node>)
    ensures |r| <= |nodes|
    ensures forall k :: 0 <= k < |r| ==> !r[k].SourceNode?
  {
    if nodes == [] then []
    else Unstoppable(nodes[..|nodes| - 1]) + (if nodes[|nodes| - 1].SourceNode? then [] else [nodes[|nodes| - 1]])
  }

  /** One more node joins the list its kind belongs to. */
  lemma SplitAppend(nodes: seq<Node>, node: Node)
    ensures Stoppable(nodes + [node]) == Stoppable(nodes) + (if node.SourceNode? then [node] else [])
    ensures Unstoppable(nodes + [node]) == Unstoppable(nodes) + (if node.SourceNode? then [] else [node])
  {
    assert (nodes + [node])[..|nodes|] == nodes;
  }

  /** Every node is either stopped or left connected: the two lists split the nodes between them. */
  lemma {:induction false} SplitCounts(nodes: seq<Node>)
    ensures |Stoppable(nodes)| + |Unstoppable(nodes)| == |nodes|
  {
    if nodes != [] {
      SplitCounts(nodes[..|nodes| - 1]);
    }
  }

  /** A non-empty list of pairs ends with a source and its 0.5 gain stage, after a list of pairs. */
  lemma PairedLast(nodes: seq<Node>)
    requires Paired(nodes) && nodes != []
    ensures Paired(nodes[..|nodes| - 2])
    ensures nodes[|nodes| - 2].SourceNode? && nodes[|nodes| - 1] == GainNode(0.5)
  {
    var n := |nodes|;
    var front := nodes[..n - 2];
    forall i | 0 <= i < |front|
      ensures if i % 2 == 0 then front[i].SourceNode? else front[i] == GainNode(0.5)
    {
      assert front[i] == nodes[i];
    }
    assert (n - 2) % 2 == 0 && (n - 1) % 2 == 1;
  }

  /** Of a list of (source, gain) pairs, the sources are stopped and every 0.5 gain stage stays connected. */
  lemma {:induction false} PairedSplit(nodes: seq<Node>)
    requires Paired(nodes)
    ensures |Stoppable(nodes)| == |nodes| / 2 == |Unstoppable(nodes)|
    ensures forall k :: 0 <= k < |nodes| / 2 ==> Stoppable(nodes)[k] == nodes[2 * k]
    ensures forall k :: 0 <= k < |nodes| / 2 ==> Unstoppable(nodes)[k] == nodes[2 * k + 1] == GainNode(0.5)
  {
    if nodes != [] {
      var n := |nodes|;
      var front, a, b := nodes[..n - 2], nodes[n - 2], nodes[n - 1];
      PairedLast(nodes);
      PairedSplit(front);
      assert nodes == (front + [a]) + [b];
      SplitAppend(front, a);
      SplitAppend(front + [a], b);
      var st, un := Stoppable(nodes), Unstoppable(nodes);
      assert st == Stoppable(front) + [a];
      assert un == Unstoppable(front) + [b];
      var m := n / 2;
      assert |front| / 2 == m - 1;
      forall k | 0 <= k < m
        ensures st[k] == nodes[2 * k]
        ensures un[k] == nodes[2 * k + 1] == GainNode(0.5)
      {
        if k < m - 1 {
          assert st[k] == Stoppable(front)[k] && un[k] == Unstoppable(front)[k];
          assert front[2 * k] == nodes[2 * k] && front[2 * k + 1] == nodes[2 * k + 1];
        } else {
          assert 2 * k == n - 2;
        }
      }
    }
  }

  class AudioProcessor {
    /** `audioContext`, null until `initializeAudio`. */
    var audioContext: Option<AudioContext>
    /** `activeNodes`. */
    var activeNodes: seq<Node>
    /** The nodes on which both `stop()` and `disconnect()` were called, oldest first. */
    var stopped: seq<Node>
    /**
     * The nodes whose `stop()` threw (a gain node has none), oldest first: each raised one
     * `console.warn`, and `disconnect()` was never reached, so they stay connected.
     */
    var leftConnected: seq<Node>

    ghost predicate Valid()
      reads this
    {
      Paired(activeNodes)
    }

    constructor()
      ensures Valid()
      ensures audioContext == None && activeNodes == [] && stopped == [] && leftConnected == []
    {
      audioContext := None;
      activeNodes := [];
      stopped := [];
      leftConnected := [];
    }

    /** `initializeAudio(context)`: the context is stored as given. */
    method InitializeAudio(context: Option<AudioContext>)
      requires Valid()
      modifies this
      ensures Valid()
      ensures audioContext == context && activeNodes == old(activeNodes)
      ensures stopped == old(stopped) && leftConnected == old(leftConnected)
    {
      audioContext := context;
    }

    /**
     * The loop of `stopAudio` over the active nodes: a node with `stop` is stopped and
     * disconnected, any other node throws, is warned about and stays connected.
     */
    static method StopEach(nodes: seq<Node>) returns (done: seq<Node>, warned: seq<Node>)
      ensures done == Stoppable(nodes) && warned == Unstoppable(nodes)
    {
      done, warned := [], [];
      var i := 0;
      while i < |nodes|
        invariant 0 <= i <= |nodes|
        invariant done == Stoppable(nodes[..i]) && warned == Unstoppable(nodes[..i])
      {
        var node := nodes[i];
        assert nodes[..i + 1] == nodes[..i] + [node];
        SplitAppend(nodes[..i], node);
        if node.SourceNode? {
          done := done + [node];
        } else {
          warned := warned + [node];
        }
        i := i + 1;
      }
      assert nodes[..i] == nodes;
    }

    /**
     * `stopAudio`: each active node in turn is tried. A source is stopped and disconnected;
     * a gain stage has no `stop`, so the call throws, the `catch` warns, and the stage stays
     * connected. Then the list is emptied.
     */
    method StopAudio()
      requires Valid()
      modifies this
      ensures Valid()
      ensures activeNodes == [] && audioContext == old(audioContext)
      ensures stopped == old(stopped) + Stoppable(old(activeNodes))
      ensures leftConnected == old(leftConnected) + Unstoppable(old(activeNodes))
    {
      var done, warned := StopEach(activeNodes);
      stopped, leftConnected := stopped + done, leftConnected + warned;
      activeNodes := [];
    }

    /**
     * `playAudio`: without a context nothing happens; otherwise the frame is mapped by the
     * selected grid (unknown: hex), voiced by the selected engine (unknown: sine) and the
     * source and its gain stage are appended to the active nodes. The previous frames come
     * back unchanged either way.
     */
    method PlayAudio<F>(data: seq<int>, width: int, height: int, prevLeft: F, prevRight: F,
                        gridType: string, synthesisEngine: string)
      returns (prevFrameDataLeft: F, prevFrameDataRight: F)
      requires Valid()
      modifies this
      ensures Valid()
      ensures prevFrameDataLeft == prevLeft && prevFrameDataRight == prevRight
      ensures audioContext == old(audioContext) && stopped == old(stopped) && leftConnected == old(leftConnected)
      ensures old(audioContext).None? ==> activeNodes == old(activeNodes)
      ensures old(audioContext).Some? ==>
        activeNodes == old(activeNodes) + [SourceNode(Played(WebTuning, gridType, synthesisEngine, data)), GainNode(0.5)]
    {
      if audioContext.None? {
        return prevLeft, prevRight;
      }
      var mapFn := SelectGrid(gridType);
      var createSoundFn := SelectEngine(synthesisEngine);
      var mappedData := MapWith(mapFn, data);
      var sourceNode := SourceNode(SoundWith(createSoundFn, WebTuning, mappedData));
      var gainNode := GainNode(0.5);
      PairedAppend(activeNodes, sourceNode.sound);
      activeNodes := activeNodes + [sourceNode, gainNode];
      return prevLeft, prevRight;
    }
  }
}

/**
 * `playFMSynthesis` of future/web/synthesis-methods/engines/fm-synthesis.js: the same
 * running-index pass as the sine engine, but a note with harmonics gets one modulator on
 * its own oscillator's frequency (twice the note's frequency, gain 100 times its intensity)
 * and only its first harmonic, on the next oscillator.
 */
module FMEngine {
  import opened Wrappers
  import opened Oscillators
  import opened StableSort
  import opened GridNotes

  /** Iteration i of the oscillator loop. */
  function Step(b: FMBank, notes: seq<Note>, i: nat): (r: FMBank)
    requires i < |b.oscs|
    ensures |r.oscs| == |b.oscs|
  {
    if b.oscIndex < |notes| then
      var n := notes[b.oscIndex];
      var oscs := b.oscs[i := Voiced(n.pitch, n.intensity, n.pan)];
      if |n.harmonics| > 0 && b.oscIndex + 1 < |oscs| then
        var k := b.oscIndex + 1;
        var modulators := b.modulators + [Modulator(n.pitch + OctaveUp, n.intensity * 100.0, i)];
        var oscs := if k < |oscs| then oscs[k := Voiced(n.harmonics[0], n.intensity * 0.5, n.pan)] else oscs;
        FMBank(oscs, k + 1, modulators)
      else
        FMBank(oscs, b.oscIndex + 1, b.modulators)
    else
      FMBank(b.oscs[i := Silenced(b.oscs[i])], b.oscIndex, b.modulators)
  }

  /** The state after the first k iterations. */
  function Loop(oscs: seq<Osc>, notes: seq<Note>, k: nat): (r: FMBank)
    requires k <= |oscs|
    ensures |r.oscs| == |oscs|
  {
    if k == 0 then FMBank(oscs, 0, []) else Step(Loop(oscs, notes, k - 1), notes, k - 1)
  }

  /** `playFMSynthesis(notes)`: the notes sorted in place, then the oscillator loop; the created modulators are returned. */
  method PlayFMSynthesis(notes: seq<Note>, oscillators: array<Osc>) returns (allNotes: seq<Note>, modulators: seq<Modulator>)
    modifies oscillators
    ensures allNotes == SortDesc(notes, ByIntensity)
    ensures var r := Loop(old(oscillators[..]), allNotes, oscillators.Length);
      oscillators[..] == r.oscs && modulators == r.modulators
  {
    var oscIndex: nat := 0;
    allNotes := SortDesc(notes, ByIntensity);
    modulators := [];
    ghost var initial := oscillators[..];
    var i := 0;
    while i < oscillators.Length
      invariant 0 <= i <= oscillators.Length
      invariant Loop(initial, allNotes, i) == FMBank(oscillators[..], oscIndex, modulators)
    {
      oscIndex, modulators := Iteration(oscillators, allNotes, i, oscIndex, modulators);
      i := i + 1;
    }
  }

  /** One iteration of the oscillator loop. */
  method Iteration(oscillators: array<Osc>, allNotes: seq<Note>, i: nat, oscIndex: nat, modulators: seq<Modulator>)
    returns (next: nat, modulators': seq<Modulator>)
    requires i < oscillators.Length
    modifies oscillators
    ensures FMBank(oscillators[..], next, modulators') == Step(FMBank(old(oscillators[..]), oscIndex, modulators), allNotes, i)
  {
    next := oscIndex;
    modulators' := modulators;
    if oscIndex < |allNotes| && i < oscillators.Length {
      var n := allNotes[oscIndex];
      oscillators[i] := Voiced(n.pitch, n.intensity, n.pan);
      if |n.harmonics| > 0 && next + 1 < oscillators.Length {
        next := next + 1;
        modulators' := modulators' + [Modulator(n.pitch + OctaveUp, n.intensity * 100.0, i)];
        if next < oscillators.Length {
          oscillators[next] := Voiced(n.harmonics[0], n.intensity * 0.5, n.pan);
        }
      }
      next := next + 1;
    } else {
      oscillators[i] := Silenced(oscillators[i]);
    }
  }

  // ---------------------------------------------------------------- final state

  /** Whether iteration j hands a note to oscillator j. */
  function Assigned(oscs: seq<Osc>, notes: seq<Note>, j: nat): bool
    requires j <= |oscs|
  {
    Loop(oscs, notes, j).oscIndex < |notes|
  }

  /** What iteration j leaves in oscillator j: the note it was handed, or a fade-out. */
  ghost predicate Final(o: Osc, oscs: seq<Osc>, notes: seq<Note>, j: nat)
    requires j <= |oscs|
  {
    var idx := Loop(oscs, notes, j).oscIndex;
    if idx < |notes| then o == Voiced(notes[idx].pitch, notes[idx].intensity, notes[idx].pan)
    else o.gain == 0.0 && !o.active
  }

  /** A modulator on an active oscillator, an octave above its frequency and at 100 times its gain. */
  ghost predicate ModulatesOsc(m: Modulator, o: Osc) {
    o.active && o.freq.Some? && m.freq == o.freq.value + OctaveUp && m.gain == o.gain * 100.0
  }

  /** While notes remain, `oscIndex` after k iterations is at least k: every iteration that hands out a note advances it. */
  lemma {:induction false} IndexAhead(oscs: seq<Osc>, notes: seq<Note>, k: nat)
    requires k <= |oscs|
    ensures Loop(oscs, notes, k).oscIndex < |notes| ==> Loop(oscs, notes, k).oscIndex >= k
  {
    if k > 0 {
      IndexAhead(oscs, notes, k - 1);
    }
  }

  /**
   * After k iterations oscillator j < k holds what iteration j wrote, because later iterations
   * write only at or after their own index; while notes remain, `oscIndex` is at least k.
   */
  lemma {:induction false} LoopInvariant(oscs: seq<Osc>, notes: seq<Note>, k: nat)
    requires k <= |oscs|
    ensures Loop(oscs, notes, k).oscIndex < |notes| ==> Loop(oscs, notes, k).oscIndex >= k
    ensures forall j :: 0 <= j < k ==> Final(Loop(oscs, notes, k).oscs[j], oscs, notes, j)
  {
    if k > 0 {
      LoopInvariant(oscs, notes, k - 1);
      var b := Loop(oscs, notes, k - 1);
      assert forall j :: 0 <= j < k - 1 ==> Loop(oscs, notes, k).oscs[j] == b.oscs[j];
    }
  }

  /** Modulators made before iteration k, each on the oscillator of its iteration, in iteration order. */
  ghost predicate MadeInOrder(mods: seq<Modulator>, oscs: seq<Osc>, k: nat) {
    && (forall m :: 0 <= m < |mods| ==> mods[m].target < k && mods[m].target < |oscs| && ModulatesOsc(mods[m], oscs[mods[m].target]))
    && (forall m, m' :: 0 <= m < m' < |mods| ==> mods[m].target < mods[m'].target)
  }

  /** The modulators of a state before iteration k are made in order. */
  ghost predicate Made(b: FMBank, k: nat) {
    MadeInOrder(b.modulators, b.oscs, k)
  }

  /**
   * One iteration that starts with `oscIndex` at least its own index keeps the modulators in
   * order and matching their oscillators, and makes at most one, only when it hands out a note.
   */
  lemma StepKeepsMade(b: FMBank, notes: seq<Note>, i: nat)
    requires i < |b.oscs| && (b.oscIndex < |notes| ==> b.oscIndex >= i)
    requires Made(b, i)
    ensures Made(Step(b, notes, i), i + 1)
  {
    var c := Step(b, notes, i);
    assert forall j :: 0 <= j < i ==> c.oscs[j] == b.oscs[j];
    if b.oscIndex < |notes| && |notes[b.oscIndex].harmonics| > 0 && b.oscIndex + 1 < |b.oscs| {
      var n := notes[b.oscIndex];
      assert c.modulators == b.modulators + [Modulator(n.pitch + OctaveUp, n.intensity * 100.0, i)];
      assert c.oscs[i] == Voiced(n.pitch, n.intensity, n.pan);
    } else {
      assert c.modulators == b.modulators;
    }
  }

  /**
   * After k iterations every modulator made sits on an earlier oscillator, a different one for
   * each, and matches the note that oscillator plays.
   */
  lemma {:induction false} ModulatorInvariant(oscs: seq<Osc>, notes: seq<Note>, k: nat)
    requires k <= |oscs|
    ensures Made(Loop(oscs, notes, k), k)
  {
    if k > 0 {
      ModulatorInvariant(oscs, notes, k - 1);
      IndexAhead(oscs, notes, k - 1);
      StepKeepsMade(Loop(oscs, notes, k - 1), notes, k - 1);
    }
  }

  /**
   * The final state: oscillator j is active exactly when iteration j handed it a note and then
   * plays that note; an oscillator that got no note ends inactive with gain target 0; there is
   * at most one modulator per note played, each on an active oscillator, an octave above it and at
   * 100 times its gain, in oscillator order.
   */
  lemma FinalOscillators(oscs: seq<Osc>, notes: seq<Note>, j: nat)
    requires j < |oscs|
    ensures var final := Loop(oscs, notes, |oscs|).oscs[j];
      && (final.active <==> Assigned(oscs, notes, j))
      && (Assigned(oscs, notes, j) ==>
            var n := notes[Loop(oscs, notes, j).oscIndex];
            final == Voiced(n.pitch, n.intensity, n.pan))
      && (!Assigned(oscs, notes, j) ==> final.gain == 0.0)
    ensures MadeInOrder(Loop(oscs, notes, |oscs|).modulators, Loop(oscs, notes, |oscs|).oscs, |oscs|)
  {
    LoopInvariant(oscs, notes, |oscs|);
    ModulatorInvariant(oscs, notes, |oscs|);
    assert Final(Loop(oscs, notes, |oscs|).oscs[j], oscs, notes, j);
  }

  /** A note with harmonics advances `oscIndex` by two when the next oscillator exists, any other by one. */
  lemma IndexAdvance(oscs: seq<Osc>, notes: seq<Note>, k: nat)
    requires k < |oscs| && Assigned(oscs, notes, k)
    ensures var idx := Loop(oscs, notes, k).oscIndex;
      Loop(oscs, notes, k + 1).oscIndex == idx + (if |notes[idx].harmonics| > 0 && idx + 1 < |oscs| then 2 else 1)
  {
  }

  /** Every note carries harmonics, as the grid mappers make them. */
  ghost predicate AllHarmonic(notes: seq<Note>) {
    forall i :: 0 <= i < |notes| ==> |notes[i].harmonics| > 0
  }

  /** With harmonics on every note, iteration k starts at note 2k. */
  lemma {:induction false} EverySecondIndex(oscs: seq<Osc>, notes: seq<Note>, k: nat)
    requires AllHarmonic(notes)
    requires k <= |oscs| && (k > 0 ==> 2 * (k - 1) < |notes| && 2 * (k - 1) + 1 < |oscs|)
    ensures Loop(oscs, notes, k).oscIndex == 2 * k
  {
    if k > 0 {
      EverySecondIndex(oscs, notes, k - 1);
    }
  }

  /** With harmonics on every note, oscillator i ends playing note 2i: the odd notes are never played. */
  lemma EverySecondNote(oscs: seq<Osc>, notes: seq<Note>, i: nat)
    requires AllHarmonic(notes)
    requires i < |oscs| && 2 * i < |notes| && 2 * i + 1 < |oscs|
    ensures var n := notes[2 * i];
      Loop(oscs, notes, |oscs|).oscs[i] == Voiced(n.pitch, n.intensity, n.pan)
  {
    EverySecondIndex(oscs, notes, i);
    FinalOscillators(oscs, notes, i);
  }
}

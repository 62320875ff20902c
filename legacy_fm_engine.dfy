/**
 * `playFMSynthesis` of past/web/v0.9.8.5/web/ui/synthesis-methods/engines/fm-synthesis.js:
 * oscillator i plays note i; when a note's harmonics fit after `oscIndex`, each harmonic
 * takes the next oscillator with a modulator of its own (twice the note's frequency, gain
 * 100 times its intensity). `oscIndex` only places the harmonics, so they land on
 * oscillators that later notes take over.
 */
module LegacyFMEngine {
  import opened Wrappers
  import opened Arith
  import opened Oscillators
  import opened StableSort
  import opened GridNotes

  /** The harmonic loop from harmonic h on. */
  function HarmonicVoices(b: FMBank, n: Note, h: nat): (r: FMBank)
    requires h <= |n.harmonics| && b.oscIndex + (|n.harmonics| - h) < |b.oscs|
    ensures |r.oscs| == |b.oscs|
    decreases |n.harmonics| - h
  {
    if h < |n.harmonics| then
      var k := b.oscIndex + 1;
      var modulators := b.modulators + [Modulator(n.pitch + OctaveUp, n.intensity * 100.0, k)];
      HarmonicVoices(FMBank(b.oscs[k := Voiced(n.harmonics[h], n.intensity * 0.5, n.pan)], k, modulators), n, h + 1)
    else
      b
  }

  /** Iteration i of the oscillator loop. */
  function Step(b: FMBank, notes: seq<Note>, i: nat): (r: FMBank)
    requires i < |b.oscs|
    ensures |r.oscs| == |b.oscs|
  {
    if i < |notes| then
      var n := notes[i];
      var played := FMBank(b.oscs[i := Voiced(n.pitch, n.intensity, n.pan)], b.oscIndex, b.modulators);
      var c := if |n.harmonics| > 0 && b.oscIndex + |n.harmonics| < |b.oscs| then HarmonicVoices(played, n, 0) else played;
      c.(oscIndex := c.oscIndex + 1)
    else
      b.(oscs := b.oscs[i := Silenced(b.oscs[i])])
  }

  /** The state after the first k iterations. */
  function Loop(oscs: seq<Osc>, notes: seq<Note>, k: nat): (r: FMBank)
    requires k <= |oscs|
    ensures |r.oscs| == |oscs|
  {
    if k == 0 then FMBank(oscs, 0, []) else Step(Loop(oscs, notes, k - 1), notes, k - 1)
  }

  /** `playFMSynthesis(notes)`: the notes sorted in place, then the oscillator loop; the created modulators are returned. */
  method PlayFMSynthesis(notes: seq<Note>, oscillators: array<Osc>) returns (allNotes: seq<Note>, modulators: seq<Modulator>)
    modifies oscillators
    ensures allNotes == SortDesc(notes, ByIntensity)
    ensures var r := Loop(old(oscillators[..]), allNotes, oscillators.Length);
      oscillators[..] == r.oscs && modulators == r.modulators
  {
    var oscIndex: nat := 0;
    allNotes := SortDesc(notes, ByIntensity);
    modulators := [];
    ghost var initial := oscillators[..];
    var i := 0;
    while i < oscillators.Length
      invariant 0 <= i <= oscillators.Length
      invariant Loop(initial, allNotes, i) == FMBank(oscillators[..], oscIndex, modulators)
    {
      oscIndex, modulators := Iteration(oscillators, allNotes, i, oscIndex, modulators);
      i := i + 1;
    }
  }

  /** One iteration of the oscillator loop. */
  method Iteration(oscillators: array<Osc>, allNotes: seq<Note>, i: nat, oscIndex: nat, modulators: seq<Modulator>)
    returns (next: nat, modulators': seq<Modulator>)
    requires i < oscillators.Length
    modifies oscillators
    ensures FMBank(oscillators[..], next, modulators') == Step(FMBank(old(oscillators[..]), oscIndex, modulators), allNotes, i)
  {
    next := oscIndex;
    modulators' := modulators;
    if i < |allNotes| {
      var n := allNotes[i];
      oscillators[i] := Voiced(n.pitch, n.intensity, n.pan);
      if |n.harmonics| > 0 && oscIndex + |n.harmonics| < oscillators.Length {
        next, modulators' := WriteHarmonics(oscillators, n, oscIndex, modulators);
      }
      next := next + 1;
    } else {
      oscillators[i] := Silenced(oscillators[i]);
    }
  }

  /** The harmonic loop of one note. */
  method WriteHarmonics(oscillators: array<Osc>, n: Note, oscIndex: nat, modulators: seq<Modulator>)
    returns (next: nat, modulators': seq<Modulator>)
    requires oscIndex + |n.harmonics| < oscillators.Length
    modifies oscillators
    ensures FMBank(oscillators[..], next, modulators') == HarmonicVoices(FMBank(old(oscillators[..]), oscIndex, modulators), n, 0)
  {
    next := oscIndex;
    modulators' := modulators;
    var h := 0;
    while h < |n.harmonics|
      invariant 0 <= h <= |n.harmonics| && next == oscIndex + h
      invariant HarmonicVoices(FMBank(oscillators[..], next, modulators'), n, h)
             == HarmonicVoices(FMBank(old(oscillators[..]), oscIndex, modulators), n, 0)
    {
      next := next + 1;
      modulators' := modulators' + [Modulator(n.pitch + OctaveUp, n.intensity * 100.0, next)];
      oscillators[next] := Voiced(n.harmonics[h], n.intensity * 0.5, n.pan);
      h := h + 1;
    }
  }

  // ---------------------------------------------------------------- the harmonic loop

  /**
   * The harmonic loop from h on puts harmonic h' on oscillator `oscIndex + 1 + (h' - h)` at half
   * the note's gain with a modulator an octave above the note at 100 times its intensity, one
   * per harmonic, and leaves every other oscillator alone.
   */
  lemma {:induction false} HarmonicVoicesWrites(b: FMBank, n: Note, h: nat)
    requires h <= |n.harmonics| && b.oscIndex + (|n.harmonics| - h) < |b.oscs|
    ensures var r := HarmonicVoices(b, n, h);
      && r.oscIndex == b.oscIndex + (|n.harmonics| - h)
      && |r.modulators| == |b.modulators| + (|n.harmonics| - h)
      && r.modulators[..|b.modulators|] == b.modulators
      && (forall m :: |b.modulators| <= m < |r.modulators| ==>
            r.modulators[m] == Modulator(n.pitch + OctaveUp, n.intensity * 100.0, b.oscIndex + 1 + (m - |b.modulators|)))
      && (forall j :: 0 <= j < |b.oscs| && !(b.oscIndex < j <= r.oscIndex) ==> r.oscs[j] == b.oscs[j])
      && (forall j :: b.oscIndex < j <= r.oscIndex ==>
            r.oscs[j] == Voiced(n.harmonics[h + (j - b.oscIndex - 1)], n.intensity * 0.5, n.pan))
    decreases |n.harmonics| - h
  {
    if h < |n.harmonics| {
      var k := b.oscIndex + 1;
      var c := FMBank(b.oscs[k := Voiced(n.harmonics[h], n.intensity * 0.5, n.pan)], k,
                      b.modulators + [Modulator(n.pitch + OctaveUp, n.intensity * 100.0, k)]);
      HarmonicVoicesWrites(c, n, h + 1);
      assert c.modulators[..|b.modulators|] == b.modulators;
      assert HarmonicVoices(c, n, h + 1).modulators[..|c.modulators|] == c.modulators;
    }
  }

  // ---------------------------------------------------------------- final state

  /**
   * While notes remain, `oscIndex` is at least the iteration's index, and every harmonic
   * written has its own modulator: after k iterations `oscIndex` is the number of notes played
   * plus the number of modulators.
   */
  lemma {:induction false} IndexCount(oscs: seq<Osc>, notes: seq<Note>, k: nat)
    requires k <= |oscs|
    ensures Loop(oscs, notes, k).oscIndex == Min(k, |notes|) + |Loop(oscs, notes, k).modulators|
  {
    if k > 0 {
      IndexCount(oscs, notes, k - 1);
      var b := Loop(oscs, notes, k - 1);
      var i := k - 1;
      if i < |notes| {
        var n := notes[i];
        var played := FMBank(b.oscs[i := Voiced(n.pitch, n.intensity, n.pan)], b.oscIndex, b.modulators);
        if |n.harmonics| > 0 && b.oscIndex + |n.harmonics| < |b.oscs| {
          HarmonicVoicesWrites(played, n, 0);
        }
      }
    }
  }

  /** What iteration j leaves in oscillator j: note j, or a fade-out once the notes run out. */
  ghost predicate Final(o: Osc, notes: seq<Note>, j: nat) {
    if j < |notes| then o == Voiced(notes[j].pitch, notes[j].intensity, notes[j].pan)
    else o.gain == 0.0 && !o.active
  }

  /** After k iterations oscillator j < k holds what iteration j wrote: harmonic writes land after `oscIndex`, which is at least k - 1. */
  lemma {:induction false} LoopInvariant(oscs: seq<Osc>, notes: seq<Note>, k: nat)
    requires k <= |oscs|
    ensures forall j :: 0 <= j < k ==> Final(Loop(oscs, notes, k).oscs[j], notes, j)
  {
    if k > 0 {
      LoopInvariant(oscs, notes, k - 1);
      IndexCount(oscs, notes, k - 1);
      var b := Loop(oscs, notes, k - 1);
      var i := k - 1;
      if i < |notes| {
        var n := notes[i];
        var played := FMBank(b.oscs[i := Voiced(n.pitch, n.intensity, n.pan)], b.oscIndex, b.modulators);
        if |n.harmonics| > 0 && b.oscIndex + |n.harmonics| < |b.oscs| {
          HarmonicVoicesWrites(played, n, 0);
        }
      }
    }
  }

  /**
   * The final state: oscillator j is active exactly when j is below the number of notes and
   * then plays note j; the others end inactive with gain target 0.
   */
  lemma FinalOscillators(oscs: seq<Osc>, notes: seq<Note>, j: nat)
    requires j < |oscs|
    ensures var final := Loop(oscs, notes, |oscs|).oscs[j];
      && (final.active <==> j < |notes|)
      && (j < |notes| ==> final == Voiced(notes[j].pitch, notes[j].intensity, notes[j].pan))
      && (j >= |notes| ==> final.gain == 0.0)
  {
    LoopInvariant(oscs, notes, |oscs|);
    assert Final(Loop(oscs, notes, |oscs|).oscs[j], notes, j);
  }

  // ---------------------------------------------------------------- modulators

  /**
   * Every modulator made so far belongs to one of the first k notes: it sits an octave above
   * that note's frequency with 100 times its intensity as gain, and drives an oscillator after
   * the note's own; modulators are made in order of the oscillators they drive, none beyond
   * `oscIndex`.
   */
  ghost predicate Made(b: FMBank, notes: seq<Note>, k: nat) {
    && (forall m :: 0 <= m < |b.modulators| ==> 0 < b.modulators[m].target <= b.oscIndex)
    && (forall m, m' :: 0 <= m < m' < |b.modulators| ==> b.modulators[m].target < b.modulators[m'].target)
    && (forall m :: 0 <= m < |b.modulators| ==> MadeFor(b.modulators[m], notes, k))
  }

  /** o sits an octave above one of the first k notes, at 100 times its intensity, driving a later oscillator. */
  ghost predicate MadeFor(o: Modulator, notes: seq<Note>, k: nat) {
    exists i :: 0 <= i < k && i < |notes| && i < o.target
      && o.freq == notes[i].pitch + OctaveUp && o.gain == notes[i].intensity * 100.0
  }

  lemma MadeForWiden(o: Modulator, notes: seq<Note>, k: nat)
    requires MadeFor(o, notes, k)
    ensures MadeFor(o, notes, k + 1)
  {
    var i :| 0 <= i < k && i < |notes| && i < o.target
      && o.freq == notes[i].pitch + OctaveUp && o.gain == notes[i].intensity * 100.0;
    assert 0 <= i < k + 1;
  }

  /** `Made` survives a step that makes no modulator. */
  lemma MadeWiden(b: FMBank, b': FMBank, notes: seq<Note>, k: nat)
    requires Made(b, notes, k) && b'.modulators == b.modulators && b'.oscIndex >= b.oscIndex
    ensures Made(b', notes, k + 1)
  {
    forall m | 0 <= m < |b'.modulators|
      ensures MadeFor(b'.modulators[m], notes, k + 1)
    {
      MadeForWiden(b.modulators[m], notes, k);
    }
  }

  /** Iteration i keeps `Made`, given that `oscIndex` has not fallen behind i. */
  lemma StepKeepsMade(b: FMBank, notes: seq<Note>, i: nat)
    requires i < |b.oscs| && (i < |notes| ==> b.oscIndex >= i) && Made(b, notes, i)
    ensures Made(Step(b, notes, i), notes, i + 1)
  {
    var r := Step(b, notes, i);
    if i < |notes| {
      var n := notes[i];
      var played := FMBank(b.oscs[i := Voiced(n.pitch, n.intensity, n.pan)], b.oscIndex, b.modulators);
      if |n.harmonics| > 0 && b.oscIndex + |n.harmonics| < |b.oscs| {
        HarmonicVoicesWrites(played, n, 0);
        var c := HarmonicVoices(played, n, 0);
        forall m | 0 <= m < |r.modulators|
          ensures MadeFor(r.modulators[m], notes, i + 1)
        {
          if m < |b.modulators| {
            assert r.modulators[m] == c.modulators[..|b.modulators|][m] == b.modulators[m];
            MadeForWiden(b.modulators[m], notes, i);
          } else {
            assert r.modulators[m].target > b.oscIndex >= i;
            assert 0 <= i < i + 1 && i < |notes| && i < r.modulators[m].target
              && r.modulators[m].freq == notes[i].pitch + OctaveUp && r.modulators[m].gain == notes[i].intensity * 100.0;
          }
        }
        forall m, m' | 0 <= m < m' < |r.modulators|
          ensures r.modulators[m].target < r.modulators[m'].target
        {
          if m' < |b.modulators| {
            assert r.modulators[m] == c.modulators[..|b.modulators|][m] == b.modulators[m];
            assert r.modulators[m'] == c.modulators[..|b.modulators|][m'] == b.modulators[m'];
          } else if m < |b.modulators| {
            assert r.modulators[m] == c.modulators[..|b.modulators|][m] == b.modulators[m];
          }
        }
        forall m | 0 <= m < |r.modulators|
          ensures 0 < r.modulators[m].target <= r.oscIndex
        {
          if m < |b.modulators| {
            assert r.modulators[m] == c.modulators[..|b.modulators|][m] == b.modulators[m];
          }
        }
      } else {
        MadeWiden(b, r, notes, i);
      }
    } else {
      MadeWiden(b, r, notes, i);
    }
  }

  /** `Made` holds after every iteration. */
  lemma {:induction false} ModulatorInvariant(oscs: seq<Osc>, notes: seq<Note>, k: nat)
    requires k <= |oscs|
    ensures Made(Loop(oscs, notes, k), notes, k)
  {
    if k > 0 {
      var b := Loop(oscs, notes, k - 1);
      ModulatorInvariant(oscs, notes, k - 1);
      IndexCount(oscs, notes, k - 1);
      assert k - 1 < |notes| ==> b.oscIndex >= k - 1;
      StepKeepsMade(b, notes, k - 1);
      assert Loop(oscs, notes, k) == Step(b, notes, k - 1);
    }
  }

  /**
   * The modulators `playFMSynthesis` creates: one per harmonic written, the count being the
   * final `oscIndex` less the number of notes played, each made for an earlier-indexed note.
   */
  lemma FinalModulators(oscs: seq<Osc>, notes: seq<Note>)
    ensures var r := Loop(oscs, notes, |oscs|);
      && |r.modulators| == r.oscIndex - Min(|oscs|, |notes|)
      && Made(r, notes, |oscs|)
  {
    IndexCount(oscs, notes, |oscs|);
    ModulatorInvariant(oscs, notes, |oscs|);
  }
}

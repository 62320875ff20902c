/**
 * `playSineWave` (future/web/synthesis-methods/engines/sine-wave.js): the notes are sorted
 * by falling intensity, then one pass over the oscillator array hands out notes with a
 * running `oscIndex`: oscillator i takes note `oscIndex`, the oscillators after `oscIndex`
 * take its harmonics at half gain, and `oscIndex` moves past both. The note index runs ahead
 * of the oscillator index, so notes are skipped; later iterations overwrite the harmonic
 * oscillators.
 */
module SineWaveEngine {
  import opened Wrappers
  import opened Oscillators
  import opened StableSort
  import opened GridNotes

  /**
   * The harmonic loop from step h on: `oscIndex` has already moved h places past the note's
   * index. It runs while `h < harmonics.length && oscIndex + h < oscillators.length`.
   */
  function Harmonics(oscs: seq<Osc>, oscIndex: nat, n: Note, h: nat): (r: Bank)
    requires h <= |n.harmonics| && oscIndex + (|n.harmonics| - h) < |oscs|
    ensures |r.oscs| == |oscs|
    decreases |n.harmonics| - h
  {
    if h < |n.harmonics| && oscIndex + h < |oscs| then
      var k := oscIndex + 1;
      Harmonics(oscs[k := Voiced(n.harmonics[h], n.intensity * 0.5, n.pan)], k, n, h + 1)
    else
      Bank(oscs, oscIndex)
  }

  /** Iteration i of the oscillator loop. */
  function Step(b: Bank, notes: seq<Note>, i: nat): (r: Bank)
    requires i < |b.oscs|
    ensures |r.oscs| == |b.oscs|
  {
    if b.oscIndex < |notes| then
      var n := notes[b.oscIndex];
      var oscs := b.oscs[i := Voiced(n.pitch, n.intensity, n.pan)];
      var c := if |n.harmonics| > 0 && b.oscIndex + |n.harmonics| < |oscs| then Harmonics(oscs, b.oscIndex, n, 0)
               else Bank(oscs, b.oscIndex);
      Bank(c.oscs, c.oscIndex + 1)
    else
      Bank(b.oscs[i := Silenced(b.oscs[i])], b.oscIndex)
  }

  /** The oscillators and `oscIndex` after the first k iterations. */
  function Loop(oscs: seq<Osc>, notes: seq<Note>, k: nat): (r: Bank)
    requires k <= |oscs|
    ensures |r.oscs| == |oscs|
  {
    if k == 0 then Bank(oscs, 0) else Step(Loop(oscs, notes, k - 1), notes, k - 1)
  }

  /** `playSineWave(notes)`: the notes sorted in place, then the oscillator loop. */
  method PlaySineWave(notes: seq<Note>, oscillators: array<Osc>) returns (allNotes: seq<Note>)
    modifies oscillators
    ensures allNotes == SortDesc(notes, ByIntensity)
    ensures oscillators[..] == Loop(old(oscillators[..]), allNotes, oscillators.Length).oscs
  {
    var oscIndex: nat := 0;
    allNotes := SortDesc(notes, ByIntensity);
    ghost var initial := oscillators[..];
    var i := 0;
    while i < oscillators.Length
      invariant 0 <= i <= oscillators.Length
      invariant Loop(initial, allNotes, i) == Bank(oscillators[..], oscIndex)
    {
      oscIndex := Iteration(oscillators, allNotes, i, oscIndex);
      i := i + 1;
    }
  }

  /** One iteration of the oscillator loop. */
  method Iteration(oscillators: array<Osc>, allNotes: seq<Note>, i: nat, oscIndex: nat) returns (next: nat)
    requires i < oscillators.Length
    modifies oscillators
    ensures Bank(oscillators[..], next) == Step(Bank(old(oscillators[..]), oscIndex), allNotes, i)
  {
    if oscIndex < |allNotes| && i < oscillators.Length {
      var n := allNotes[oscIndex];
      oscillators[i] := Voiced(n.pitch, n.intensity, n.pan);
      next := oscIndex;
      if |n.harmonics| > 0 && oscIndex + |n.harmonics| < oscillators.Length {
        next := WriteHarmonics(oscillators, n, oscIndex);
      }
      next := next + 1;
    } else {
      oscillators[i] := Silenced(oscillators[i]);
      next := oscIndex;
    }
  }

  /** The harmonic loop of one note. */
  method WriteHarmonics(oscillators: array<Osc>, n: Note, oscIndex: nat) returns (next: nat)
    requires oscIndex + |n.harmonics| < oscillators.Length
    modifies oscillators
    ensures Bank(oscillators[..], next) == Harmonics(old(oscillators[..]), oscIndex, n, 0)
  {
    next := oscIndex;
    var h := 0;
    while h < |n.harmonics| && next + h < oscillators.Length
      invariant 0 <= h <= |n.harmonics| && next == oscIndex + h
      invariant Harmonics(oscillators[..], next, n, h) == Harmonics(old(oscillators[..]), oscIndex, n, 0)
    {
      next := next + 1;
      oscillators[next] := Voiced(n.harmonics[h], n.intensity * 0.5, n.pan);
      h := h + 1;
    }
  }

  // ---------------------------------------------------------------- final state

  /** Whether iteration j hands a note to oscillator j: `oscIndex` is still below the number of notes. */
  function Assigned(oscs: seq<Osc>, notes: seq<Note>, j: nat): bool
    requires j <= |oscs|
  {
    Loop(oscs, notes, j).oscIndex < |notes|
  }

  /**
   * The harmonic loop writes only the oscillators after the note's index, moves `oscIndex`
   * by at most the number of harmonics, and every oscillator it writes plays a harmonic.
   */
  lemma {:induction false} HarmonicsTouchLater(oscs: seq<Osc>, oscIndex: nat, n: Note, h: nat)
    requires h <= |n.harmonics| && oscIndex + (|n.harmonics| - h) < |oscs|
    ensures oscIndex <= Harmonics(oscs, oscIndex, n, h).oscIndex <= oscIndex + (|n.harmonics| - h)
    ensures forall j :: 0 <= j <= oscIndex ==> Harmonics(oscs, oscIndex, n, h).oscs[j] == oscs[j]
    decreases |n.harmonics| - h
  {
    if h < |n.harmonics| && oscIndex + h < |oscs| {
      var k := oscIndex + 1;
      HarmonicsTouchLater(oscs[k := Voiced(n.harmonics[h], n.intensity * 0.5, n.pan)], k, n, h + 1);
    }
  }

  /** What iteration j leaves in oscillator j: the note it was handed, or a fade-out. */
  ghost predicate Final(o: Osc, oscs: seq<Osc>, notes: seq<Note>, j: nat)
    requires j <= |oscs|
  {
    var idx := Loop(oscs, notes, j).oscIndex;
    if idx < |notes| then o == Voiced(notes[idx].pitch, notes[idx].intensity, notes[idx].pan)
    else o.gain == 0.0 && !o.active
  }

  /**
   * After k iterations every oscillator j < k holds what iteration j wrote, because later
   * iterations write only at or after their own index; while notes remain, `oscIndex` is at least k.
   */
  lemma {:induction false} LoopInvariant(oscs: seq<Osc>, notes: seq<Note>, k: nat)
    requires k <= |oscs|
    ensures Loop(oscs, notes, k).oscIndex < |notes| ==> Loop(oscs, notes, k).oscIndex >= k
    ensures forall j :: 0 <= j < k ==> Final(Loop(oscs, notes, k).oscs[j], oscs, notes, j)
  {
    if k > 0 {
      LoopInvariant(oscs, notes, k - 1);
      var b := Loop(oscs, notes, k - 1);
      var i := k - 1;
      if b.oscIndex < |notes| {
        var n := notes[b.oscIndex];
        var played := b.oscs[i := Voiced(n.pitch, n.intensity, n.pan)];
        if |n.harmonics| > 0 && b.oscIndex + |n.harmonics| < |played| {
          HarmonicsTouchLater(played, b.oscIndex, n, 0);
        }
      }
    }
  }

  /**
   * The final state: oscillator j is active exactly when iteration j handed it a note, it then
   * plays that note (not a harmonic: harmonic writes land on later oscillators and are
   * overwritten there), and an oscillator that got no note ends inactive with gain target 0.
   */
  lemma FinalOscillators(oscs: seq<Osc>, notes: seq<Note>, j: nat)
    requires j < |oscs|
    ensures var final := Loop(oscs, notes, |oscs|).oscs[j];
      && (final.active <==> Assigned(oscs, notes, j))
      && (Assigned(oscs, notes, j) ==>
            var n := notes[Loop(oscs, notes, j).oscIndex];
            final == Voiced(n.pitch, n.intensity, n.pan))
      && (!Assigned(oscs, notes, j) ==> final.gain == 0.0)
  {
    LoopInvariant(oscs, notes, |oscs|);
    assert Final(Loop(oscs, notes, |oscs|).oscs[j], oscs, notes, j);
  }

  /** With at most two harmonics that fit, every harmonic is written and `oscIndex` moves past all of them. */
  lemma HarmonicsAllWritten(oscs: seq<Osc>, oscIndex: nat, n: Note)
    requires |n.harmonics| <= 2 && oscIndex + |n.harmonics| < |oscs|
    ensures Harmonics(oscs, oscIndex, n, 0).oscIndex == oscIndex + |n.harmonics|
    ensures forall h :: 0 <= h < |n.harmonics| ==>
      Harmonics(oscs, oscIndex, n, 0).oscs[oscIndex + 1 + h] == Voiced(n.harmonics[h], n.intensity * 0.5, n.pan)
  {
    if |n.harmonics| == 2 {
      var o1 := oscs[oscIndex + 1 := Voiced(n.harmonics[0], n.intensity * 0.5, n.pan)];
      var o2 := o1[oscIndex + 2 := Voiced(n.harmonics[1], n.intensity * 0.5, n.pan)];
      assert Harmonics(o1, oscIndex + 1, n, 1) == Harmonics(o2, oscIndex + 2, n, 2);
    }
  }

  /**
   * The inner guard tests `oscIndex + h` after `oscIndex` has already moved h places: with three
   * harmonics and exactly one spare oscillator beyond them, the third harmonic is dropped.
   */
  lemma ThirdHarmonicDropped(oscs: seq<Osc>, oscIndex: nat, n: Note)
    requires |n.harmonics| == 3 && |oscs| == oscIndex + 4
    ensures Harmonics(oscs, oscIndex, n, 0).oscIndex == oscIndex + 2
    ensures Harmonics(oscs, oscIndex, n, 0).oscs[oscIndex + 3] == oscs[oscIndex + 3]
  {
    var o1 := oscs[oscIndex + 1 := Voiced(n.harmonics[0], n.intensity * 0.5, n.pan)];
    var o2 := o1[oscIndex + 2 := Voiced(n.harmonics[1], n.intensity * 0.5, n.pan)];
    assert Harmonics(o1, oscIndex + 1, n, 1) == Harmonics(o2, oscIndex + 2, n, 2);
  }

  /** Every note carries two harmonics, as the grid mappers make them. */
  ghost predicate TwoHarmonics(notes: seq<Note>) {
    forall i :: 0 <= i < |notes| ==> |notes[i].harmonics| == 2
  }

  /** With two harmonics per note, each note takes three oscillators: iteration k starts at note 3k. */
  lemma {:induction false} EveryThirdIndex(oscs: seq<Osc>, notes: seq<Note>, k: nat)
    requires TwoHarmonics(notes)
    requires k <= |oscs| && (k > 0 ==> 3 * (k - 1) < |notes| && 3 * (k - 1) + 2 < |oscs|)
    ensures Loop(oscs, notes, k).oscIndex == 3 * k
  {
    if k > 0 {
      EveryThirdIndex(oscs, notes, k - 1);
      var b := Loop(oscs, notes, k - 1);
      var n := notes[b.oscIndex];
      HarmonicsAllWritten(b.oscs[k - 1 := Voiced(n.pitch, n.intensity, n.pan)], b.oscIndex, n);
    }
  }

  /**
   * With two harmonics per note, oscillator i ends playing note 3i: notes 1, 2, 4, 5, ... are
   * never played.
   */
  lemma EveryThirdNote(oscs: seq<Osc>, notes: seq<Note>, i: nat)
    requires TwoHarmonics(notes)
    requires i < |oscs| && 3 * i < |notes| && 3 * i + 2 < |oscs|
    ensures var n := notes[3 * i];
      Loop(oscs, notes, |oscs|).oscs[i] == Voiced(n.pitch, n.intensity, n.pan)
  {
    EveryThirdIndex(oscs, notes, i);
    FinalOscillators(oscs, notes, i);
  }
}

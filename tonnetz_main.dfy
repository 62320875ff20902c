/**
 * The browser Tonnetz prototype (web/tonnetz/main.js): a 64x48 grayscale frame is
 * split into a left and a right half, each half's motion against the previous
 * frame picks up to four cells of a 16x16 Tonnetz grid, and the resulting notes
 * (with harmonics) are written to a bank of eight oscillators.
 *
 * Frequencies are represented by their semitone index k above minFreq = 100 Hz:
 * table entry k is 100 * 2^(k/12) Hz, so a harmonic that multiplies by 2^(s/12)
 * adds s to the index.
 */
module TonnetzMain {
  import opened Wrappers
  import opened Arith
  import opened Motion
  import opened StableSort
  import opened FrameSplit
  import opened Oscillators

  const GridSize: nat := 16
  const NotesPerOctave: nat := 12
  const Octaves: nat := 5
  const MotionThreshold: int := 30
  const MaxNotesPerSide: nat := 4
  const OscillatorCount: nat := 8

  /** Semitones from C along the circle of fifths. */
  const CircleOfFifths: seq<int> := [0, 7, 2, 9, 4, 11, 6, 1, 8, 3, 10, 5]

  function MinReal(a: real, b: real): real {
    if a < b then a else b
  }

  // ---------------------------------------------------------------- tables

  /** The frequency table: entry octave * 12 + note is `100 * 2^(octave + note / 12)`. */
  method BuildFrequencies() returns (frequencies: seq<int>)
    ensures |frequencies| == Octaves * NotesPerOctave
    ensures forall k :: 0 <= k < |frequencies| ==> frequencies[k] == k
  {
    frequencies := [];
    var octave := 0;
    while octave < Octaves
      invariant 0 <= octave <= Octaves && |frequencies| == octave * NotesPerOctave
      invariant forall k :: 0 <= k < |frequencies| ==> frequencies[k] == k
    {
      var note := 0;
      while note < NotesPerOctave
        invariant 0 <= note <= NotesPerOctave && |frequencies| == octave * NotesPerOctave + note
        invariant forall k :: 0 <= k < |frequencies| ==> frequencies[k] == k
      {
        frequencies := frequencies + [octave * NotesPerOctave + note];
        note := note + 1;
      }
      octave := octave + 1;
    }
  }

  /** The table index of grid cell (x, y): octave `floor(y / 16 * 5)`, note by the circle of fifths. */
  function TonnetzIndex(y: int, x: int): int {
    ((y * Octaves) / GridSize) * NotesPerOctave + CircleOfFifths[x % 12]
  }

  /** The circle of fifths visits every semitone exactly once. */
  lemma CircleOfFifthsIsPermutation()
    ensures |CircleOfFifths| == 12
    ensures forall i, j :: 0 <= i < j < 12 ==> CircleOfFifths[i] != CircleOfFifths[j]
    ensures forall n :: 0 <= n < 12 ==> n in CircleOfFifths
    ensures forall i :: 0 <= i < 12 ==> 0 <= CircleOfFifths[i] < 12
  {
    assert CircleOfFifths[0] == 0 && CircleOfFifths[7] == 1 && CircleOfFifths[2] == 2 && CircleOfFifths[9] == 3;
    assert CircleOfFifths[4] == 4 && CircleOfFifths[11] == 5 && CircleOfFifths[6] == 6 && CircleOfFifths[1] == 7;
    assert CircleOfFifths[8] == 8 && CircleOfFifths[3] == 9 && CircleOfFifths[10] == 10 && CircleOfFifths[5] == 11;
  }

  /**
   * A cell of the 16x16 grid names octave `5y / 16` (0 to 4) and the x-th step of the circle
   * of fifths, so its index is below the 60 table entries and `% frequencies.length` never wraps.
   */
  lemma TonnetzIndexInTable(y: int, x: int)
    requires 0 <= y < GridSize
    ensures 0 <= TonnetzIndex(y, x) < Octaves * NotesPerOctave
    ensures TonnetzIndex(y, x) / NotesPerOctave == (y * Octaves) / GridSize
    ensures TonnetzIndex(y, x) % NotesPerOctave == CircleOfFifths[x % 12]
  {
    CircleOfFifthsIsPermutation();
    var octave := (y * Octaves) / GridSize;
    assert 0 <= octave < Octaves;
    DivUnique(TonnetzIndex(y, x), NotesPerOctave, octave, CircleOfFifths[x % 12]);
  }

  /** The grid: cell (x, y) holds `frequencies[TonnetzIndex(y, x) % frequencies.length]`. */
  method BuildTonnetzGrid(frequencies: seq<int>) returns (grid: array2<int>)
    requires |frequencies| == Octaves * NotesPerOctave
    ensures fresh(grid) && grid.Length0 == GridSize && grid.Length1 == GridSize
    ensures forall y, x :: 0 <= y < GridSize && 0 <= x < GridSize ==> grid[y, x] == frequencies[TonnetzIndex(y, x)]
  {
    grid := new int[GridSize, GridSize];
    var y := 0;
    while y < GridSize
      invariant 0 <= y <= GridSize
      invariant forall y', x :: 0 <= y' < y && 0 <= x < GridSize ==> grid[y', x] == frequencies[TonnetzIndex(y', x)]
    {
      FillGridRow(grid, frequencies, y);
      y := y + 1;
    }
  }

  /** The inner loop of the grid construction: row y gets its sixteen table entries, other rows are kept. */
  method FillGridRow(grid: array2<int>, frequencies: seq<int>, y: nat)
    requires |frequencies| == Octaves * NotesPerOctave
    requires grid.Length0 == GridSize && grid.Length1 == GridSize && y < GridSize
    modifies grid
    ensures forall x :: 0 <= x < GridSize ==> grid[y, x] == frequencies[TonnetzIndex(y, x)]
    ensures forall y', x :: 0 <= y' < GridSize && 0 <= x < GridSize && y' != y ==> grid[y', x] == old(grid[y', x])
  {
    var x := 0;
    while x < GridSize
      invariant 0 <= x <= GridSize
      invariant forall x' :: 0 <= x' < x ==> grid[y, x'] == frequencies[TonnetzIndex(y, x')]
      invariant forall y', x' :: 0 <= y' < GridSize && 0 <= x' < GridSize && y' != y ==> grid[y', x'] == old(grid[y', x'])
    {
      TonnetzIndexInTable(y, x);
      var octave := (y * Octaves) / GridSize;
      var noteIndex := CircleOfFifths[x % |CircleOfFifths|];
      var freqIndex := octave * NotesPerOctave + noteIndex;
      assert freqIndex == TonnetzIndex(y, x) && freqIndex % |frequencies| == freqIndex;
      grid[y, x] := frequencies[freqIndex % |frequencies|];
      x := x + 1;
    }
  }

  /** The grid built from the frequency table. */
  ghost predicate IsTonnetzGrid(grid: array2<int>)
    reads grid
  {
    grid.Length0 == GridSize && grid.Length1 == GridSize
    && forall y, x :: 0 <= y < GridSize && 0 <= x < GridSize ==> grid[y, x] == TonnetzIndex(y, x)
  }

  /** Built from the table of indices 0 .. 59, the grid holds each cell's Tonnetz index. */
  lemma GridOfTable(grid: array2<int>, frequencies: seq<int>)
    requires |frequencies| == Octaves * NotesPerOctave
    requires forall k :: 0 <= k < |frequencies| ==> frequencies[k] == k
    requires grid.Length0 == GridSize && grid.Length1 == GridSize
    requires forall y, x :: 0 <= y < GridSize && 0 <= x < GridSize ==> grid[y, x] == frequencies[TonnetzIndex(y, x)]
    ensures IsTonnetzGrid(grid)
  {
    forall y, x | 0 <= y < GridSize && 0 <= x < GridSize
      ensures grid[y, x] == TonnetzIndex(y, x)
    {
      TonnetzIndexInTable(y, x);
    }
  }

  // ---------------------------------------------------------------- notes

  /** A note: its table index, gain, harmonics (table indices) and stereo pan. */
  datatype Note = Note(freq: int, amplitude: real, harmonics: seq<int>, pan: real)

  /** `Math.min(maxAmplitude, 0.02 + (delta / 255) * 0.06)`. */
  function Amplitude(delta: int, maxAmplitude: real): real {
    MinReal(maxAmplitude, 0.02 + (delta as real / 255.0) * 0.06)
  }

  /** A stronger motion never gives a quieter note, and no note is louder than maxAmplitude. */
  lemma AmplitudeIsMonotone(d1: int, d2: int, maxAmplitude: real)
    requires d1 <= d2
    ensures Amplitude(d1, maxAmplitude) <= Amplitude(d2, maxAmplitude) <= maxAmplitude
  {
  }

  /** For a byte delta the amplitude lies between min(maxAmplitude, 0.02) and min(maxAmplitude, 0.08). */
  lemma AmplitudeRange(delta: int, maxAmplitude: real)
    requires 0 <= delta <= 255
    ensures MinReal(maxAmplitude, 0.02) <= Amplitude(delta, maxAmplitude) <= MinReal(maxAmplitude, 0.08)
  {
  }

  /** Major adds a major third and a fifth, minor a minor third and a fifth, any other mode a tritone. */
  function Harmonics(freq: int, noteMode: string): (h: seq<int>)
    ensures |h| == (if noteMode == "major" || noteMode == "minor" then 2 else 1)
    ensures forall k :: 0 <= k < |h| ==> freq < h[k] <= freq + 7
  {
    if noteMode == "major" then [freq + 4, freq + 7]
    else if noteMode == "minor" then [freq + 3, freq + 7]
    else [freq + 6]
  }

  /** The note a moving region plays. */
  function NoteOf(r: Region, noteMode: string, maxAmplitude: real, pan: real): Note {
    var freq := TonnetzIndex(r.gridY, r.gridX);
    Note(freq, Amplitude(r.delta, maxAmplitude), Harmonics(freq, noteMode), pan)
  }

  /** The regions `mapFrameToTonnetz` ranks: the detected ones sorted by non-increasing delta. */
  function Ranked(frame: seq<int>, width: nat, height: nat, prev: Option<seq<int>>): seq<Region>
    requires |frame| == width * height && (prev.Some? ==> |prev.value| == |frame|)
  {
    SortDesc(Detected(frame, width, height, prev, GridSize, MotionThreshold), ByDelta)
  }

  /** Sorting keeps the regions, so every ranked region moved and lies in the grid. */
  lemma RankedAreMoving(frame: seq<int>, width: nat, height: nat, prev: Option<seq<int>>)
    requires |frame| == width * height && (prev.Some? ==> |prev.value| == |frame|)
    ensures AllMoving(Ranked(frame, width, height, prev), GridSize, MotionThreshold)
  {
    var detected := Detected(frame, width, height, prev, GridSize, MotionThreshold);
    var ranked := Ranked(frame, width, height, prev);
    DetectedAreMoving(frame, width, height, prev, GridSize, MotionThreshold);
    forall r | r in ranked
      ensures Moving(r, GridSize, MotionThreshold)
    {
      assert r in multiset(ranked);
      assert r in detected;
    }
  }

  /** mapFrameToTonnetz's note loop: the notes of the first four ranked regions, looked up in the grid. */
  method NotesOfRanked(ranked: seq<Region>, pan: real, noteMode: string, maxAmplitude: real, grid: array2<int>)
    returns (notes: seq<Note>)
    requires AllMoving(ranked, GridSize, MotionThreshold) && IsTonnetzGrid(grid)
    ensures |notes| == Min(MaxNotesPerSide, |ranked|)
    ensures forall i :: 0 <= i < |notes| ==> notes[i] == NoteOf(ranked[i], noteMode, maxAmplitude, pan)
  {
    notes := [];
    var i := 0;
    while i < Min(MaxNotesPerSide, |ranked|)
      invariant 0 <= i <= Min(MaxNotesPerSide, |ranked|) && |notes| == i
      invariant forall k :: 0 <= k < i ==> notes[k] == NoteOf(ranked[k], noteMode, maxAmplitude, pan)
    {
      var r := ranked[i];
      assert Moving(r, GridSize, MotionThreshold);
      var freq := grid[r.gridY, r.gridX];
      var amplitude := MinReal(maxAmplitude, 0.02 + (r.delta as real / 255.0) * 0.06);
      var harmonics := [];
      if noteMode == "major" {
        harmonics := [freq + 4, freq + 7];
      } else if noteMode == "minor" {
        harmonics := [freq + 3, freq + 7];
      } else {
        harmonics := [freq + 6];
      }
      notes := notes + [Note(freq, amplitude, harmonics, pan)];
      i := i + 1;
    }
  }

  /**
   * `mapFrameToTonnetz`: the notes of the four strongest moving regions, in ranking order, and
   * a copy of the frame to compare the next frame with.
   */
  method MapFrameToTonnetz(frame: seq<int>, width: nat, height: nat, prev: Option<seq<int>>, pan: real,
                           noteMode: string, maxAmplitude: real, grid: array2<int>)
    returns (notes: seq<Note>, newFrameData: seq<int>)
    requires |frame| == width * height && (prev.Some? ==> |prev.value| == |frame|)
    requires IsTonnetzGrid(grid)
    ensures newFrameData == frame
    ensures var ranked := Ranked(frame, width, height, prev);
      |notes| == Min(MaxNotesPerSide, |ranked|)
      && forall i :: 0 <= i < |notes| ==> notes[i] == NoteOf(ranked[i], noteMode, maxAmplitude, pan)
  {
    newFrameData := frame;
    var movingRegions := DetectMotion(frame, width, height, prev, GridSize, MotionThreshold);
    movingRegions := SortDesc(movingRegions, ByDelta);
    RankedAreMoving(frame, width, height, prev);
    notes := NotesOfRanked(movingRegions, pan, noteMode, maxAmplitude, grid);
  }

  /**
   * The notes of one half: at most four, none on the first frame, every one a cell of the table
   * with the caller's pan and an amplitude at most maxAmplitude, and in non-increasing amplitude.
   */
  lemma NotesOfHalf(frame: seq<int>, width: nat, height: nat, prev: Option<seq<int>>, pan: real,
                    noteMode: string, maxAmplitude: real, notes: seq<Note>)
    requires |frame| == width * height && (prev.Some? ==> |prev.value| == |frame|)
    requires var ranked := Ranked(frame, width, height, prev);
      |notes| == Min(MaxNotesPerSide, |ranked|)
      && forall i :: 0 <= i < |notes| ==> notes[i] == NoteOf(ranked[i], noteMode, maxAmplitude, pan)
    ensures |notes| <= MaxNotesPerSide
    ensures prev.None? ==> notes == []
    ensures forall i :: 0 <= i < |notes| ==>
      && 0 <= notes[i].freq < Octaves * NotesPerOctave
      && notes[i].pan == pan && notes[i].amplitude <= maxAmplitude
      && notes[i].harmonics == Harmonics(notes[i].freq, noteMode)
    ensures forall i, j :: 0 <= i < j < |notes| ==> notes[i].amplitude >= notes[j].amplitude
  {
    var detected := Detected(frame, width, height, prev, GridSize, MotionThreshold);
    var ranked := Ranked(frame, width, height, prev);
    RankedAreMoving(frame, width, height, prev);
    SortDescIsDescending(detected, ByDelta);
    forall i | 0 <= i < |notes|
      ensures 0 <= notes[i].freq < Octaves * NotesPerOctave
    {
      assert Moving(ranked[i], GridSize, MotionThreshold);
      TonnetzIndexInTable(ranked[i].gridY, ranked[i].gridX);
    }
    forall i, j | 0 <= i < j < |notes|
      ensures notes[i].amplitude >= notes[j].amplitude
    {
      AmplitudeIsMonotone(ranked[j].delta, ranked[i].delta, maxAmplitude);
    }
  }

  // ---------------------------------------------------------------- oscillators

  /**
   * `freq < 400 ? 'square' : freq < 1000 ? 'triangle' : 'sine'` on the index: 100 * 2^(k/12) is
   * below 400 Hz exactly for k < 24 and below 1000 Hz exactly for k < 40 (2^(39/12) < 10 < 2^(40/12)).
   */
  function WaveFor(freq: int): Wave {
    if freq < 24 then Square else if freq < 40 then Triangle else Sine
  }

  /** The oscillator that plays a note. */
  function Playing(n: Note): Osc {
    Osc(WaveFor(n.freq), Some(n.freq), n.amplitude, n.pan, true)
  }

  /** An oscillator that takes harmonic f of note n at half the note's gain; its wave is kept. */
  function PlayingHarmonic(o: Osc, f: int, n: Note): Osc {
    o.(freq := Some(f), gain := n.amplitude * 0.5, pan := n.pan, active := true)
  }

  /** The first h harmonics of n written to the oscillators after start. */
  function WriteHarmonics(oscs: seq<Osc>, start: nat, n: Note, h: nat): (r: seq<Osc>)
    requires h <= |n.harmonics| && start + h < |oscs|
    ensures |r| == |oscs|
  {
    if h == 0 then oscs
    else
      var before := WriteHarmonics(oscs, start, n, h - 1);
      before[start + h := PlayingHarmonic(before[start + h], n.harmonics[h - 1], n)]
  }

  /** Iteration i of the update loop. */
  function Step(b: Bank, notes: seq<Note>, i: nat): (r: Bank)
    requires i < |b.oscs|
    ensures |r.oscs| == |b.oscs|
  {
    if i < |notes| then
      var n := notes[i];
      var oscs := b.oscs[i := Playing(n)];
      if |n.harmonics| > 0 && b.oscIndex + |n.harmonics| < |oscs| then
        Bank(WriteHarmonics(oscs, b.oscIndex, n, |n.harmonics|), b.oscIndex + |n.harmonics| + 1)
      else
        Bank(oscs, b.oscIndex + 1)
    else
      Bank(b.oscs[i := Silenced(b.oscs[i])], b.oscIndex)
  }

  /** The bank after the first k iterations, from the oscillators oscs. */
  function Loop(oscs: seq<Osc>, notes: seq<Note>, k: nat): (r: Bank)
    requires k <= |oscs|
    ensures |r.oscs| == |oscs|
  {
    if k == 0 then Bank(oscs, 0) else Step(Loop(oscs, notes, k - 1), notes, k - 1)
  }

  /** The oscillator update loop of `playAudio`. */
  method UpdateOscillators(oscillators: seq<Osc>, allNotes: seq<Note>) returns (updated: seq<Osc>)
    ensures updated == Loop(oscillators, allNotes, |oscillators|).oscs
  {
    updated := oscillators;
    var oscIndex: nat := 0;
    var i := 0;
    while i < |oscillators|
      invariant 0 <= i <= |oscillators| && Loop(oscillators, allNotes, i) == Bank(updated, oscIndex)
    {
      if i < |allNotes| {
        var n := allNotes[i];
        updated := updated[i := Playing(n)];
        if |n.harmonics| > 0 && oscIndex + |n.harmonics| < |updated| {
          var start := oscIndex;
          var h := 0;
          while h < |n.harmonics|
            invariant 0 <= h <= |n.harmonics| && oscIndex == start + h
            invariant |updated| == |oscillators|
            invariant updated == WriteHarmonics(Loop(oscillators, allNotes, i).oscs[i := Playing(n)], start, n, h)
          {
            oscIndex := oscIndex + 1;
            updated := updated[oscIndex := PlayingHarmonic(updated[oscIndex], n.harmonics[h], n)];
            h := h + 1;
          }
        }
        oscIndex := oscIndex + 1;
      } else {
        updated := updated[i := Silenced(updated[i])];
      }
      i := i + 1;
    }
  }

  /** What the update loop writes to oscillator j at iteration j and no later iteration overwrites. */
  ghost predicate Final(o: Osc, initial: Osc, notes: seq<Note>, j: nat) {
    if j < |notes| then o == Playing(notes[j])
    else o.gain == 0.0 && !o.active && o.wave == initial.wave
  }

  /** Harmonic writes keep waves and only touch the oscillators after start. */
  lemma {:induction false} WriteHarmonicsTouchesLater(oscs: seq<Osc>, start: nat, n: Note, h: nat, j: nat)
    requires h <= |n.harmonics| && start + h < |oscs| && j < |oscs|
    ensures WriteHarmonics(oscs, start, n, h)[j].wave == oscs[j].wave
    ensures j <= start ==> WriteHarmonics(oscs, start, n, h)[j] == oscs[j]
  {
    if h > 0 {
      WriteHarmonicsTouchesLater(oscs, start, n, h - 1, j);
    }
  }

  /**
   * Invariant of the update loop: after k iterations, oscillator j < k is final, every later
   * oscillator still has its initial wave, and while notes remain `oscIndex` is at least k.
   */
  lemma {:induction false} LoopInvariant(oscs: seq<Osc>, notes: seq<Note>, k: nat)
    requires k <= |oscs|
    ensures k <= |notes| ==> Loop(oscs, notes, k).oscIndex >= k
    ensures forall j :: 0 <= j < k ==> Final(Loop(oscs, notes, k).oscs[j], oscs[j], notes, j)
    ensures forall j :: k <= j < |oscs| ==> Loop(oscs, notes, k).oscs[j].wave == oscs[j].wave
  {
    if k > 0 {
      LoopInvariant(oscs, notes, k - 1);
      var b := Loop(oscs, notes, k - 1);
      var i := k - 1;
      if i < |notes| {
        var n := notes[i];
        var played := b.oscs[i := Playing(n)];
        if |n.harmonics| > 0 && b.oscIndex + |n.harmonics| < |played| {
          forall j | 0 <= j < |oscs|
            ensures WriteHarmonics(played, b.oscIndex, n, |n.harmonics|)[j].wave == played[j].wave
            ensures j <= b.oscIndex ==> WriteHarmonics(played, b.oscIndex, n, |n.harmonics|)[j] == played[j]
          {
            WriteHarmonicsTouchesLater(played, b.oscIndex, n, |n.harmonics|, j);
          }
        }
      }
    }
  }

  /**
   * After `playAudio`'s loop, oscillator j plays note j when j is below the number of notes, and
   * otherwise is inactive with gain target 0: every harmonic write lands on a later oscillator
   * and is overwritten there, so no harmonic is left sounding.
   */
  lemma OscillatorsAfterUpdate(oscs: seq<Osc>, notes: seq<Note>, j: nat)
    requires j < |oscs|
    ensures var final := Loop(oscs, notes, |oscs|).oscs[j];
      && (final.active <==> j < |notes|)
      && (j < |notes| ==> final == Playing(notes[j]))
      && (j >= |notes| ==> final.gain == 0.0 && final.wave == oscs[j].wave)
  {
    LoopInvariant(oscs, notes, |oscs|);
  }

  // ---------------------------------------------------------------- grayscale

  /** ECMAScript ToUint8Clamp: clamp to [0, 255], then round to nearest with ties to even. */
  function ToUint8Clamp(v: real): (r: int)
    ensures 0 <= r <= 255
  {
    if v <= 0.0 then 0
    else if v >= 255.0 then 255
    else
      var f := v.Floor;
      if f as real + 0.5 < v then f + 1
      else if v < f as real + 0.5 then f
      else if f % 2 == 0 then f else f + 1
  }

  /** The gray value of an RGB triple: `(r + g + b) / 3` stored into a Uint8ClampedArray. */
  function Gray(r: int, g: int, b: int): int {
    ToUint8Clamp((r + g + b) as real / 3.0)
  }

  /** A third of a byte sum is never a half, so the stored value is the sum divided by 3, rounded. */
  lemma GrayIsRoundedMean(r: int, g: int, b: int)
    requires 0 <= r <= 255 && 0 <= g <= 255 && 0 <= b <= 255
    ensures Gray(r, g, b) == (r + g + b + 1) / 3
  {
    var s := r + g + b;
    var q := s / 3;
    var v := s as real / 3.0;
    assert s == 3 * q + s % 3;
    assert v == q as real + (s % 3) as real / 3.0;
    assert v.Floor == q;
  }

  /**
   * What `playAudio` leaves after a frame is played: the halves replace the previous ones,
   * and the bank holds the Loop fold of the left notes (pan -1) followed by the right notes
   * (pan +1), each the first MaxNotesPerSide regions of its half ranked by delta.
   */
  ghost predicate PlayedFrame(frameData: seq<int>, width: nat, height: nat,
                              prevLeft: Option<seq<int>>, prevRight: Option<seq<int>>, oscs: seq<Osc>,
                              noteMode: string, maxAmplitude: real,
                              newLeft: Option<seq<int>>, newRight: Option<seq<int>>, newOscs: seq<Osc>)
    requires |frameData| == width * height && width % 2 == 0
    requires prevLeft.Some? ==> |prevLeft.value| == (width / 2) * height
    requires prevRight.Some? ==> |prevRight.value| == (width / 2) * height
  {
    var half := width / 2;
    var left := HalfRows(frameData, width, height, 0, half, height);
    var right := HalfRows(frameData, width, height, half, half, height);
    && newLeft == Some(left) && newRight == Some(right)
    && exists leftNotes: seq<Note>, rightNotes: seq<Note> ::
      && |leftNotes| == Min(MaxNotesPerSide, |Ranked(left, half, height, prevLeft)|)
      && (forall i :: 0 <= i < |leftNotes| ==>
            leftNotes[i] == NoteOf(Ranked(left, half, height, prevLeft)[i], noteMode, maxAmplitude, -1.0))
      && |rightNotes| == Min(MaxNotesPerSide, |Ranked(right, half, height, prevRight)|)
      && (forall i :: 0 <= i < |rightNotes| ==>
            rightNotes[i] == NoteOf(Ranked(right, half, height, prevRight)[i], noteMode, maxAmplitude, 1.0))
      && newOscs == Loop(oscs, leftNotes + rightNotes, |oscs|).oscs
  }

  /** The gray frame of an RGBA image of `pixels` pixels. */
  function GrayFrame(imageData: seq<int>, pixels: nat): (g: seq<int>)
    requires |imageData| == 4 * pixels
    ensures |g| == pixels
    ensures forall k :: 0 <= k < pixels ==> g[k] == Gray(imageData[4 * k], imageData[4 * k + 1], imageData[4 * k + 2])
  {
    seq(pixels, k requires 0 <= k < pixels => Gray(imageData[4 * k], imageData[4 * k + 1], imageData[4 * k + 2]))
  }

  /** processFrame's loop: gray pixel k is the clamped mean of the red, green and blue bytes of RGBA pixel k. */
  method Grayscale(imageData: seq<int>, pixels: nat) returns (grayData: seq<int>)
    requires |imageData| == 4 * pixels
    ensures |grayData| == pixels
    ensures forall k :: 0 <= k < pixels ==> grayData[k] == Gray(imageData[4 * k], imageData[4 * k + 1], imageData[4 * k + 2])
    ensures grayData == GrayFrame(imageData, pixels)
  {
    var gray := new int[pixels];
    var i := 0;
    while i < |imageData|
      invariant 0 <= i <= |imageData| && i % 4 == 0
      invariant forall k :: 0 <= k < i / 4 ==> gray[k] == Gray(imageData[4 * k], imageData[4 * k + 1], imageData[4 * k + 2])
    {
      gray[i / 4] := ToUint8Clamp((imageData[i] + imageData[i + 1] + imageData[i + 2]) as real / 3.0);
      i := i + 4;
    }
    grayData := gray[..];
  }

  // ---------------------------------------------------------------- settings

  /** `list.indexOf(v)`: the first position of v, or -1. */
  function IndexOf<T(==)>(list: seq<T>, v: T): (i: int)
    ensures -1 <= i < |list|
    ensures i == -1 <==> v !in list
    ensures i >= 0 ==> list[i] == v && forall k :: 0 <= k < i ==> list[k] != v
  {
    if list == [] then -1
    else if list[0] == v then 0
    else
      var i := IndexOf(list[1..], v);
      if i == -1 then -1 else i + 1
  }

  /** `list[(list.indexOf(v) + 1) % 3] || first`: the entry after v, or the first one for an unknown v. */
  function Cycle<T(==)>(list: seq<T>, v: T): (next: T)
    requires |list| == 3
    ensures next in list
  {
    list[(IndexOf(list, v) + 1) % 3]
  }

  /** A three-entry cycle of distinct values moves to the next entry, wraps around, and sends unknown values to the first. */
  lemma CycleSteps<T>(list: seq<T>, v: T)
    requires |list| == 3 && list[0] != list[1] && list[1] != list[2] && list[0] != list[2]
    ensures v == list[0] ==> Cycle(list, v) == list[1]
    ensures v == list[1] ==> Cycle(list, v) == list[2]
    ensures v == list[2] ==> Cycle(list, v) == list[0]
    ensures v !in list ==> Cycle(list, v) == list[0]
    ensures v in list ==> Cycle(list, Cycle(list, Cycle(list, v))) == v
  {
    assert IndexOf(list, list[0]) == 0;
    assert IndexOf(list, list[1]) == 1 by { assert list[1..][0] == list[1]; }
    assert IndexOf(list, list[2]) == 2 by {
      assert list[1..][1..][0] == list[2];
      assert IndexOf(list[1..], list[2]) == 1;
    }
  }

  const Intervals: seq<int> := [50, 100, 250]
  const NoteModes: seq<string> := ["major", "minor", "dissonant"]
  const Amplitudes: seq<real> := [0.04, 0.08, 0.12]

  /** The settings cycles visit each list in order. */
  lemma SettingsCycles()
    ensures Cycle(Intervals, 50) == 100 && Cycle(Intervals, 100) == 250 && Cycle(Intervals, 250) == 50
    ensures Cycle(NoteModes, "major") == "minor" && Cycle(NoteModes, "minor") == "dissonant"
    ensures Cycle(NoteModes, "dissonant") == "major"
    ensures Cycle(Amplitudes, 0.04) == 0.08 && Cycle(Amplitudes, 0.08) == 0.12 && Cycle(Amplitudes, 0.12) == 0.04
  {
    CycleSteps(Intervals, 50);
    CycleSteps(Intervals, 100);
    CycleSteps(Intervals, 250);
    CycleSteps(NoteModes, "major");
    CycleSteps(NoteModes, "minor");
    CycleSteps(NoteModes, "dissonant");
    CycleSteps(Amplitudes, 0.04);
    CycleSteps(Amplitudes, 0.08);
    CycleSteps(Amplitudes, 0.12);
  }

  // ---------------------------------------------------------------- the page

  /** The page's state: settings, audio flag, oscillators, the previous halves and the grid. */
  class TonnetzApp {
    var updateInterval: int
    var noteMode: string
    var maxAmplitude: real
    var isAudioInitialized: bool
    var oscillators: seq<Osc>
    var prevFrameDataLeft: Option<seq<int>>
    var prevFrameDataRight: Option<seq<int>>
    const tonnetzGrid: array2<int>

    ghost predicate Valid()
      reads this, tonnetzGrid
    {
      IsTonnetzGrid(tonnetzGrid)
    }

    /** Page load: the default settings, no audio, no previous frame and the grid built from the table. */
    constructor()
      ensures Valid()
      ensures updateInterval == 50 && noteMode == "major" && maxAmplitude == 0.08
      ensures !isAudioInitialized && oscillators == []
      ensures prevFrameDataLeft == None && prevFrameDataRight == None
    {
      updateInterval := 50;
      noteMode := "major";
      maxAmplitude := 0.08;
      isAudioInitialized := false;
      oscillators := [];
      prevFrameDataLeft, prevFrameDataRight := None, None;
      var frequencies := BuildFrequencies();
      var grid := BuildTonnetzGrid(frequencies);
      GridOfTable(grid, frequencies);
      tonnetzGrid := grid;
    }

    /**
     * `initializeAudio`: once only; creates eight silent oscillators when the audio context can be
     * created (contextCreated), and sets the flag either way, as the catch branch does.
     */
    method InitializeAudio(contextCreated: bool)
      modifies this
      ensures old(isAudioInitialized) ==> oscillators == old(oscillators)
      ensures !old(isAudioInitialized) && contextCreated ==>
        oscillators == old(oscillators) + seq(OscillatorCount, _ => InitialOsc)
      ensures !old(isAudioInitialized) && !contextCreated ==> oscillators == old(oscillators)
      ensures isAudioInitialized
      ensures updateInterval == old(updateInterval) && noteMode == old(noteMode) && maxAmplitude == old(maxAmplitude)
      ensures prevFrameDataLeft == old(prevFrameDataLeft) && prevFrameDataRight == old(prevFrameDataRight)
    {
      if isAudioInitialized {
        return;
      }
      if contextCreated {
        var i := 0;
        while i < OscillatorCount
          invariant 0 <= i <= OscillatorCount
          invariant oscillators == old(oscillators) + seq(i, _ => InitialOsc)
          invariant updateInterval == old(updateInterval) && noteMode == old(noteMode) && maxAmplitude == old(maxAmplitude)
          invariant prevFrameDataLeft == old(prevFrameDataLeft) && prevFrameDataRight == old(prevFrameDataRight)
          invariant !isAudioInitialized
        {
          oscillators := oscillators + [InitialOsc];
          i := i + 1;
        }
      }
      isAudioInitialized := true;
    }

    /**
     * `playAudio`: without audio nothing happens; otherwise the halves are mapped with pan -1 and
     * +1 against their previous halves, which they then replace, and the left notes followed by
     * the right notes are written to the oscillators.
     */
    method PlayAudio(frameData: seq<int>, width: nat, height: nat)
      requires Valid() && |frameData| == width * height && width % 2 == 0
      requires prevFrameDataLeft.Some? ==> |prevFrameDataLeft.value| == (width / 2) * height
      requires prevFrameDataRight.Some? ==> |prevFrameDataRight.value| == (width / 2) * height
      modifies this
      ensures Valid()
      ensures updateInterval == old(updateInterval) && noteMode == old(noteMode) && maxAmplitude == old(maxAmplitude)
      ensures isAudioInitialized == old(isAudioInitialized)
      ensures !old(isAudioInitialized) ==> unchanged(this)
      ensures old(isAudioInitialized) ==>
        PlayedFrame(frameData, width, height, old(prevFrameDataLeft), old(prevFrameDataRight), old(oscillators),
                    noteMode, maxAmplitude, prevFrameDataLeft, prevFrameDataRight, oscillators)
    {
      if !isAudioInitialized {
        return;
      }
      var halfWidth := width / 2;
      var leftFrame, rightFrame := SplitFrame(frameData, width, height);
      var leftNotes, leftData := MapFrameToTonnetz(leftFrame, halfWidth, height, prevFrameDataLeft, -1.0, noteMode, maxAmplitude, tonnetzGrid);
      var rightNotes, rightData := MapFrameToTonnetz(rightFrame, halfWidth, height, prevFrameDataRight, 1.0, noteMode, maxAmplitude, tonnetzGrid);
      prevFrameDataLeft := Some(leftData);
      prevFrameDataRight := Some(rightData);
      oscillators := UpdateOscillators(oscillators, leftNotes + rightNotes);
    }

    /** The top-left touch handler: the update interval cycles 50, 100, 250 ms. */
    method CycleUpdateInterval()
      modifies this
      ensures updateInterval == Cycle(Intervals, old(updateInterval))
      ensures noteMode == old(noteMode) && maxAmplitude == old(maxAmplitude) && isAudioInitialized == old(isAudioInitialized)
      ensures oscillators == old(oscillators)
      ensures prevFrameDataLeft == old(prevFrameDataLeft) && prevFrameDataRight == old(prevFrameDataRight)
    {
      var intervals := [50, 100, 250];
      updateInterval := intervals[(IndexOf(intervals, updateInterval) + 1) % 3];
    }

    /** The top-right touch handler: the note mode cycles major, minor, dissonant. */
    method CycleNoteMode()
      modifies this
      ensures noteMode == Cycle(NoteModes, old(noteMode))
      ensures updateInterval == old(updateInterval) && maxAmplitude == old(maxAmplitude) && isAudioInitialized == old(isAudioInitialized)
      ensures oscillators == old(oscillators)
      ensures prevFrameDataLeft == old(prevFrameDataLeft) && prevFrameDataRight == old(prevFrameDataRight)
    {
      var modes := ["major", "minor", "dissonant"];
      noteMode := modes[(IndexOf(modes, noteMode) + 1) % 3];
    }

    /** The bottom-left touch handler: the maximum amplitude cycles 0.04, 0.08, 0.12. */
    method CycleMaxAmplitude()
      modifies this
      ensures maxAmplitude == Cycle(Amplitudes, old(maxAmplitude))
      ensures updateInterval == old(updateInterval) && noteMode == old(noteMode) && isAudioInitialized == old(isAudioInitialized)
      ensures oscillators == old(oscillators)
      ensures prevFrameDataLeft == old(prevFrameDataLeft) && prevFrameDataRight == old(prevFrameDataRight)
    {
      var amplitudes := [0.04, 0.08, 0.12];
      maxAmplitude := amplitudes[(IndexOf(amplitudes, maxAmplitude) + 1) % 3];
    }

    /** `processFrame`: the 64x48 RGBA canvas image turned to gray and played. */
    method ProcessFrame(imageData: seq<int>)
      requires Valid() && |imageData| == 4 * 64 * 48
      requires prevFrameDataLeft.Some? ==> |prevFrameDataLeft.value| == 32 * 48
      requires prevFrameDataRight.Some? ==> |prevFrameDataRight.value| == 32 * 48
      modifies this
      ensures Valid()
      ensures prevFrameDataLeft.Some? ==> |prevFrameDataLeft.value| == 32 * 48
      ensures prevFrameDataRight.Some? ==> |prevFrameDataRight.value| == 32 * 48
      ensures updateInterval == old(updateInterval) && noteMode == old(noteMode) && maxAmplitude == old(maxAmplitude)
      ensures isAudioInitialized == old(isAudioInitialized)
      ensures !old(isAudioInitialized) ==> unchanged(this)
      ensures old(isAudioInitialized) ==>
        PlayedFrame(GrayFrame(imageData, 64 * 48), 64, 48, old(prevFrameDataLeft), old(prevFrameDataRight), old(oscillators),
                    noteMode, maxAmplitude, prevFrameDataLeft, prevFrameDataRight, oscillators)
    {
      var grayData := Grayscale(imageData, 64 * 48);
      PlayAudio(grayData, 64, 48);
    }
  }
}

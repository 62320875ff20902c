/**
 * The hexagonal Tonnetz mapper (present/synthesis-methods/grids/hex-tonnetz.js): a
 * 32x32 grid whose rows climb five octaves and whose odd rows are shifted by a tritone,
 * motion against the previous frame above 50, and up to sixteen of the strongest moving
 * regions examined, each accepted one blocking its cell and the eight around it.
 */
module HexTonnetz {
  import opened Wrappers
  import opened Arith
  import opened Motion
  import opened StableSort
  import opened GridNotes

  const GridSize: nat := 32
  const MotionThreshold: int := 50
  const MaxExamined: nat := 16

  // ---------------------------------------------------------------- the grid

  /** The table index of cell (x, y): octave `floor(y / 32 * 5)`, note `(x + (y % 2) * 6) % 12`. */
  function HexIndex(y: int, x: int): int {
    ((y * Octaves) / GridSize) * NotesPerOctave + (x + (y % 2) * 6) % NotesPerOctave
  }

  /**
   * A row of the grid names octave `5y / 32` (0 to 4) and a note of that octave, so the index
   * is below the sixty table entries and `% frequencies.length` never wraps.
   */
  lemma HexIndexInTable(y: int, x: int)
    requires 0 <= y < GridSize
    ensures 0 <= HexIndex(y, x) < Octaves * NotesPerOctave
    ensures HexIndex(y, x) / NotesPerOctave == (y * Octaves) / GridSize
    ensures HexIndex(y, x) % NotesPerOctave == (x + (y % 2) * 6) % NotesPerOctave
  {
    var octave := (y * Octaves) / GridSize;
    assert 0 <= octave < Octaves;
    DivUnique(HexIndex(y, x), NotesPerOctave, octave, (x + (y % 2) * 6) % NotesPerOctave);
  }

  /** An odd row sounds a tritone (six semitones) away from the even row above it, column by column. */
  lemma OddRowShift(y: int, x: int)
    requires 0 < y < GridSize && y % 2 == 1 && 0 <= x
    ensures HexIndex(y, x) % NotesPerOctave == (HexIndex(y - 1, x) + 6) % NotesPerOctave
  {
    HexIndexInTable(y, x);
    HexIndexInTable(y - 1, x);
    var octave := ((y - 1) * Octaves) / GridSize;
    var r, s, t := x % 12, (x % 12 + 6) % 12, (x % 12 + 6) / 12;
    assert HexIndex(y - 1, x) + 6 == (octave + t) * 12 + s;
    assert x + 6 == (x / 12 + t) * 12 + s;
    RowMajor(octave + t, 12, s);
    RowMajor(x / 12 + t, 12, s);
  }

  /** The grid construction: cell (x, y) holds `frequencies[HexIndex(y, x) % frequencies.length]`. */
  method BuildHexGrid(frequencies: seq<int>) returns (grid: array2<int>)
    requires |frequencies| == Octaves * NotesPerOctave
    ensures fresh(grid) && grid.Length0 == GridSize && grid.Length1 == GridSize
    ensures forall y, x :: 0 <= y < GridSize && 0 <= x < GridSize ==> grid[y, x] == frequencies[HexIndex(y, x)]
  {
    grid := new int[GridSize, GridSize];
    var y := 0;
    while y < GridSize
      invariant 0 <= y <= GridSize
      invariant forall y', x :: 0 <= y' < y && 0 <= x < GridSize ==> grid[y', x] == frequencies[HexIndex(y', x)]
    {
      FillHexRow(grid, frequencies, y);
      y := y + 1;
    }
  }

  /** The inner loop of the grid construction: row y gets its 32 entries, other rows are kept. */
  method FillHexRow(grid: array2<int>, frequencies: seq<int>, y: nat)
    requires |frequencies| == Octaves * NotesPerOctave
    requires grid.Length0 == GridSize && grid.Length1 == GridSize && y < GridSize
    modifies grid
    ensures forall x :: 0 <= x < GridSize ==> grid[y, x] == frequencies[HexIndex(y, x)]
    ensures forall y', x :: 0 <= y' < GridSize && 0 <= x < GridSize && y' != y ==> grid[y', x] == old(grid[y', x])
  {
    var x := 0;
    while x < GridSize
      invariant 0 <= x <= GridSize
      invariant forall x' :: 0 <= x' < x ==> grid[y, x'] == frequencies[HexIndex(y, x')]
      invariant forall y', x' :: 0 <= y' < GridSize && 0 <= x' < GridSize && y' != y ==> grid[y', x'] == old(grid[y', x'])
    {
      HexIndexInTable(y, x);
      var octave := (y * Octaves) / GridSize;
      var noteOffset := (x + (y % 2) * 6) % NotesPerOctave;
      var freqIndex := octave * NotesPerOctave + noteOffset;
      assert freqIndex == HexIndex(y, x) && freqIndex % |frequencies| == freqIndex;
      grid[y, x] := frequencies[freqIndex % |frequencies|];
      x := x + 1;
    }
  }

  /** The grid built from the table of indices: every cell holds its own index. */
  ghost predicate IsHexGrid(grid: array2<int>)
    reads grid
  {
    grid.Length0 == GridSize && grid.Length1 == GridSize
    && forall y, x :: 0 <= y < GridSize && 0 <= x < GridSize ==> grid[y, x] == HexIndex(y, x)
  }

  /** Built from the sixty-entry table, the grid holds each cell's index. */
  lemma HexGridOfTable(grid: array2<int>, frequencies: seq<int>)
    requires |frequencies| == Octaves * NotesPerOctave
    requires forall k :: 0 <= k < |frequencies| ==> frequencies[k] == k
    requires grid.Length0 == GridSize && grid.Length1 == GridSize
    requires forall y, x :: 0 <= y < GridSize && 0 <= x < GridSize ==> grid[y, x] == frequencies[HexIndex(y, x)]
    ensures IsHexGrid(grid)
  {
    forall y, x | 0 <= y < GridSize && 0 <= x < GridSize
      ensures grid[y, x] == HexIndex(y, x)
    {
      HexIndexInTable(y, x);
    }
  }

  // ---------------------------------------------------------------- the mapper

  /** The note of an accepted region. */
  function NoteOf(r: Region, dayNightMode: string, pan: real): Note {
    var pitch := HexIndex(r.gridY, r.gridX);
    Note(pitch, Amplitude(r.intensity, dayNightMode), Harmonics(pitch), pan)
  }

  function NotesOf(chosen: seq<Region>, dayNightMode: string, pan: real): (notes: seq<Note>)
    ensures |notes| == |chosen|
    ensures forall j :: 0 <= j < |chosen| ==> notes[j] == NoteOf(chosen[j], dayNightMode, pan)
  {
    seq(|chosen|, j requires 0 <= j < |chosen| => NoteOf(chosen[j], dayNightMode, pan))
  }

  /** The regions that become notes: the first min(16, n) ranked regions, each blocking its neighbourhood. */
  function Chosen(frame: seq<int>, width: nat, height: nat, prev: Option<seq<int>>): seq<Region>
    requires |frame| == width * height && (prev.Some? ==> |prev.value| == |frame|)
  {
    var ranked := RankedRegions(frame, width, height, prev, GridSize, MotionThreshold);
    Picked(ranked, Min(MaxExamined, |ranked|), true).chosen
  }

  /**
   * `mapFrameToTonnetz`: the notes of the chosen regions, the frame copied for the next
   * comparison, and the mean intensity.
   */
  method MapFrameToTonnetz(frameData: seq<int>, width: nat, height: nat, prevFrameData: Option<seq<int>>,
                           panValue: real, dayNightMode: string, grid: array2<int>)
    returns (result: MapResult)
    requires |frameData| == width * height && (prevFrameData.Some? ==> |prevFrameData.value| == |frameData|)
    requires IsHexGrid(grid)
    ensures result.newFrameData == frameData && result.avgIntensity == Average(frameData)
    ensures result.notes == NotesOf(Chosen(frameData, width, height, prevFrameData), dayNightMode, panValue)
  {
    var newFrameData := frameData;
    var avgIntensity := Mean(frameData);
    var movingRegions := DetectMotion(frameData, width, height, prevFrameData, GridSize, MotionThreshold);
    movingRegions := SortDesc(movingRegions, ByDelta);
    RankedRegionsMoving(frameData, width, height, prevFrameData, GridSize, MotionThreshold);
    var notes := NotesOfRanked(movingRegions, panValue, dayNightMode, grid);
    result := MapResult(notes, newFrameData, avgIntensity);
  }

  /** The note loop: up to sixteen ranked regions examined, `usedCells` blocking each accepted neighbourhood. */
  method NotesOfRanked(movingRegions: seq<Region>, panValue: real, dayNightMode: string, grid: array2<int>)
    returns (notes: seq<Note>)
    requires AllMoving(movingRegions, GridSize, MotionThreshold) && IsHexGrid(grid)
    ensures notes == NotesOf(Picked(movingRegions, Min(MaxExamined, |movingRegions|), true).chosen, dayNightMode, panValue)
  {
    notes := [];
    var usedCells := {};
    ghost var chosen := [];
    var i := 0;
    while i < Min(MaxExamined, |movingRegions|)
      invariant 0 <= i <= Min(MaxExamined, |movingRegions|)
      invariant Pick(chosen, usedCells) == Picked(movingRegions, i, true)
      invariant |notes| == |chosen| && forall j :: 0 <= j < |chosen| ==> notes[j] == NoteOf(chosen[j], dayNightMode, panValue)
    {
      var r := movingRegions[i];
      if (r.gridX, r.gridY) !in usedCells {
        assert Moving(r, GridSize, MotionThreshold);
        var note;
        note, usedCells := AcceptRegion(r, usedCells, panValue, dayNightMode, grid);
        notes := notes + [note];
        chosen := chosen + [r];
      }
      i := i + 1;
    }
    assert notes == NotesOf(chosen, dayNightMode, panValue);
  }

  /** The body of the note loop for a region whose cell is free: it blocks the neighbourhood and yields the note. */
  method AcceptRegion(r: Region, usedCells: set<(int, int)>, panValue: real, dayNightMode: string, grid: array2<int>)
    returns (note: Note, usedCells': set<(int, int)>)
    requires Moving(r, GridSize, MotionThreshold) && IsHexGrid(grid)
    ensures note == NoteOf(r, dayNightMode, panValue)
    ensures usedCells' == usedCells + Blocked(r.gridX, r.gridY, true)
  {
    usedCells' := usedCells + {(r.gridX, r.gridY)};
    usedCells' := BlockNeighbours(usedCells', r.gridX, r.gridY);
    var freq := grid[r.gridY, r.gridX];
    var amplitude := if dayNightMode == "day" then 0.02 + (r.intensity as real / 255.0) * 0.06
                     else 0.08 - (r.intensity as real / 255.0) * 0.06;
    var harmonics := [freq + 7, freq + 4];
    note := Note(freq, amplitude, harmonics, panValue);
  }

  /** At most sixteen notes, and none on the first frame. */
  lemma ChosenCount(frame: seq<int>, width: nat, height: nat, prev: Option<seq<int>>)
    requires |frame| == width * height && (prev.Some? ==> |prev.value| == |frame|)
    ensures |Chosen(frame, width, height, prev)| <= MaxExamined
    ensures prev.None? ==> Chosen(frame, width, height, prev) == []
  {
    RankedRegionsMoving(frame, width, height, prev, GridSize, MotionThreshold);
  }

  /**
   * Every note is a cell of the table with the caller's pan, a fifth and a major third as
   * harmonics and, for a byte frame, an amplitude in [0.02, 0.08].
   */
  lemma ChosenNoteFields(frame: seq<int>, width: nat, height: nat, prev: Option<seq<int>>, pan: real, dayNightMode: string, i: nat)
    requires |frame| == width * height && (prev.Some? ==> |prev.value| == |frame|)
    requires i < |Chosen(frame, width, height, prev)|
    ensures var n := NotesOf(Chosen(frame, width, height, prev), dayNightMode, pan)[i];
      && 0 <= n.pitch < Octaves * NotesPerOctave
      && n.pan == pan && n.harmonics == [n.pitch + 7, n.pitch + 4]
      && (Bytes(frame) ==> 0.02 <= n.intensity <= 0.08)
  {
    var ranked := RankedRegions(frame, width, height, prev, GridSize, MotionThreshold);
    var k := Min(MaxExamined, |ranked|);
    var r := Chosen(frame, width, height, prev)[i];
    assert Moving(r, GridSize, MotionThreshold) && (Bytes(frame) ==> 0 <= r.intensity <= 255) by {
      RankedRegionsMoving(frame, width, height, prev, GridSize, MotionThreshold);
      PickedFromRanked(ranked, k, true);
      assert r in ranked;
    }
    HexIndexInTable(r.gridY, r.gridX);
    if Bytes(frame) {
      AmplitudeRange(r.intensity, r.intensity, dayNightMode);
    }
  }

  /** Any two notes' cells are at least two steps apart in x or in y. */
  lemma ChosenApart(frame: seq<int>, width: nat, height: nat, prev: Option<seq<int>>, i: nat, j: nat)
    requires |frame| == width * height && (prev.Some? ==> |prev.value| == |frame|)
    requires i < j < |Chosen(frame, width, height, prev)|
    ensures var c := Chosen(frame, width, height, prev);
      Abs(c[i].gridX - c[j].gridX) >= 2 || Abs(c[i].gridY - c[j].gridY) >= 2
  {
    var ranked := RankedRegions(frame, width, height, prev, GridSize, MotionThreshold);
    var c := Chosen(frame, width, height, prev);
    PickedApart(ranked, Min(MaxExamined, |ranked|), true);
    assert Apart(c[i], c[j], true);
  }

  /** The notes come in non-increasing delta order, and the strongest moving region is always the first. */
  lemma ChosenOrder(frame: seq<int>, width: nat, height: nat, prev: Option<seq<int>>)
    requires |frame| == width * height && (prev.Some? ==> |prev.value| == |frame|)
    ensures var c := Chosen(frame, width, height, prev);
      forall i, j :: 0 <= i < j < |c| ==> c[i].delta >= c[j].delta
    ensures var ranked := RankedRegions(frame, width, height, prev, GridSize, MotionThreshold);
      ranked != [] ==> Chosen(frame, width, height, prev) != [] && Chosen(frame, width, height, prev)[0] == ranked[0]
  {
    var ranked := RankedRegions(frame, width, height, prev, GridSize, MotionThreshold);
    var k := Min(MaxExamined, |ranked|);
    RankedRegionsMoving(frame, width, height, prev, GridSize, MotionThreshold);
    PickedDescending(ranked, k, true);
    if ranked != [] {
      FirstIsPicked(ranked, k, true);
    }
  }

  /**
   * A region among the first sixteen that did not become a note is in the cell of a note or
   * one of the eight cells around it.
   */
  lemma SkippedTouchesNote(frame: seq<int>, width: nat, height: nat, prev: Option<seq<int>>, i: nat)
    requires |frame| == width * height && (prev.Some? ==> |prev.value| == |frame|)
    requires i < Min(MaxExamined, |RankedRegions(frame, width, height, prev, GridSize, MotionThreshold)|)
    ensures var r := RankedRegions(frame, width, height, prev, GridSize, MotionThreshold)[i];
      var c := Chosen(frame, width, height, prev);
      exists j :: 0 <= j < |c| && Abs(c[j].gridX - r.gridX) <= 1 && Abs(c[j].gridY - r.gridY) <= 1
  {
    var ranked := RankedRegions(frame, width, height, prev, GridSize, MotionThreshold);
    var c := Chosen(frame, width, height, prev);
    ExaminedNearNote(ranked, Min(MaxExamined, |ranked|), true, i);
    var j :| 0 <= j < |c| && CellOf(ranked[i]) in Blocked(c[j].gridX, c[j].gridY, true);
    InNeighbourhood(c[j].gridX, c[j].gridY, CellOf(ranked[i]));
  }
}

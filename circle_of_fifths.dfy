/**
 * The circle-of-fifths mapper (synthesis-methods/grids/circle-of-fifths.js): a 12x12
 * grid over the frame, motion against the previous frame above 50, and up to eight of
 * the strongest moving regions examined, at most one note per cell; the note of cell
 * (x, y) is semitone `(x + y) % 12` of the first octave.
 */
module CircleOfFifths {
  import opened Wrappers
  import opened Arith
  import opened Motion
  import opened StableSort
  import opened GridNotes

  const GridSize: nat := 12
  const MotionThreshold: int := 50
  const MaxExamined: nat := 8

  /** `(gridX + gridY) % notesPerOctave`. */
  function NoteIndex(r: Region): int {
    (r.gridX + r.gridY) % NotesPerOctave
  }

  /** The note of an accepted region. */
  function NoteOf(r: Region, dayNightMode: string, pan: real): Note {
    var pitch := NoteIndex(r);
    Note(pitch, Amplitude(r.intensity, dayNightMode), Harmonics(pitch), pan)
  }

  function NotesOf(chosen: seq<Region>, dayNightMode: string, pan: real): (notes: seq<Note>)
    ensures |notes| == |chosen|
    ensures forall j :: 0 <= j < |chosen| ==> notes[j] == NoteOf(chosen[j], dayNightMode, pan)
  {
    seq(|chosen|, j requires 0 <= j < |chosen| => NoteOf(chosen[j], dayNightMode, pan))
  }

  /** The regions that become notes: the first min(8, n) ranked regions, one per cell. */
  function Chosen(frame: seq<int>, width: nat, height: nat, prev: Option<seq<int>>): seq<Region>
    requires |frame| == width * height && (prev.Some? ==> |prev.value| == |frame|)
  {
    var ranked := RankedRegions(frame, width, height, prev, GridSize, MotionThreshold);
    Picked(ranked, Min(MaxExamined, |ranked|), false).chosen
  }

  /**
   * `mapFrameToCircleOfFifths`: the notes of the chosen regions, the frame copied for the
   * next comparison, and the mean intensity.
   */
  method MapFrameToCircleOfFifths(frameData: seq<int>, width: nat, height: nat, prevFrameData: Option<seq<int>>,
                                  panValue: real, dayNightMode: string, frequencies: seq<int>)
    returns (result: MapResult)
    requires |frameData| == width * height && (prevFrameData.Some? ==> |prevFrameData.value| == |frameData|)
    requires IsTable(frequencies)
    ensures result.newFrameData == frameData && result.avgIntensity == Average(frameData)
    ensures result.notes == NotesOf(Chosen(frameData, width, height, prevFrameData), dayNightMode, panValue)
  {
    var newFrameData := frameData;
    var avgIntensity := Mean(frameData);
    var movingRegions := DetectMotion(frameData, width, height, prevFrameData, GridSize, MotionThreshold);
    movingRegions := SortDesc(movingRegions, ByDelta);
    var notes := NotesOfRanked(movingRegions, panValue, dayNightMode, frequencies);
    result := MapResult(notes, newFrameData, avgIntensity);
  }

  /** The note loop: up to eight ranked regions examined, `usedCells` holding the cells of the notes. */
  method NotesOfRanked(movingRegions: seq<Region>, panValue: real, dayNightMode: string, frequencies: seq<int>)
    returns (notes: seq<Note>)
    requires IsTable(frequencies)
    ensures notes == NotesOf(Picked(movingRegions, Min(MaxExamined, |movingRegions|), false).chosen, dayNightMode, panValue)
  {
    notes := [];
    var usedCells := {};
    ghost var chosen := [];
    var i := 0;
    while i < Min(MaxExamined, |movingRegions|)
      invariant 0 <= i <= Min(MaxExamined, |movingRegions|)
      invariant Pick(chosen, usedCells) == Picked(movingRegions, i, false)
      invariant |notes| == |chosen| && forall j :: 0 <= j < |chosen| ==> notes[j] == NoteOf(chosen[j], dayNightMode, panValue)
    {
      var r := movingRegions[i];
      if (r.gridX, r.gridY) !in usedCells {
        usedCells := usedCells + {(r.gridX, r.gridY)};
        var noteIndex := (r.gridX + r.gridY) % NotesPerOctave;
        var freq := frequencies[noteIndex];
        var amplitude := if dayNightMode == "day" then 0.02 + (r.intensity as real / 255.0) * 0.06
                         else 0.08 - (r.intensity as real / 255.0) * 0.06;
        var harmonics := [freq + 7, freq + 4];
        notes := notes + [Note(freq, amplitude, harmonics, panValue)];
        chosen := chosen + [r];
      }
      i := i + 1;
    }
    assert notes == NotesOf(chosen, dayNightMode, panValue);
  }

  /** At most eight notes, and none on the first frame. */
  lemma ChosenCount(frame: seq<int>, width: nat, height: nat, prev: Option<seq<int>>)
    requires |frame| == width * height && (prev.Some? ==> |prev.value| == |frame|)
    ensures |Chosen(frame, width, height, prev)| <= MaxExamined
    ensures prev.None? ==> Chosen(frame, width, height, prev) == []
  {
    RankedRegionsMoving(frame, width, height, prev, GridSize, MotionThreshold);
  }

  /** Every chosen region moved, lies in the 12x12 grid and, for a byte frame, has a byte intensity. */
  lemma ChosenRegion(frame: seq<int>, width: nat, height: nat, prev: Option<seq<int>>, i: nat)
    requires |frame| == width * height && (prev.Some? ==> |prev.value| == |frame|)
    requires i < |Chosen(frame, width, height, prev)|
    ensures var r := Chosen(frame, width, height, prev)[i];
      && Moving(r, GridSize, MotionThreshold)
      && (Bytes(frame) ==> 0 <= r.intensity <= 255)
  {
    var ranked := RankedRegions(frame, width, height, prev, GridSize, MotionThreshold);
    RankedRegionsMoving(frame, width, height, prev, GridSize, MotionThreshold);
    PickedFromRanked(ranked, Min(MaxExamined, |ranked|), false);
    assert Chosen(frame, width, height, prev)[i] in ranked;
  }

  /**
   * Every note is a semitone of the first octave with the caller's pan, a fifth and a major
   * third as harmonics and, for a byte frame, an amplitude in [0.02, 0.08].
   */
  lemma ChosenNoteFields(frame: seq<int>, width: nat, height: nat, prev: Option<seq<int>>, pan: real, dayNightMode: string, i: nat)
    requires |frame| == width * height && (prev.Some? ==> |prev.value| == |frame|)
    requires i < |Chosen(frame, width, height, prev)|
    ensures var n := NotesOf(Chosen(frame, width, height, prev), dayNightMode, pan)[i];
      && 0 <= n.pitch < NotesPerOctave
      && n.pan == pan && n.harmonics == [n.pitch + 7, n.pitch + 4]
      && (Bytes(frame) ==> 0.02 <= n.intensity <= 0.08)
  {
    var r := Chosen(frame, width, height, prev)[i];
    assert NotesOf(Chosen(frame, width, height, prev), dayNightMode, pan)[i] == NoteOf(r, dayNightMode, pan);
    ChosenRegion(frame, width, height, prev, i);
    if Bytes(frame) {
      AmplitudeRange(r.intensity, r.intensity, dayNightMode);
    }
  }

  /** No two notes share a cell. */
  lemma ChosenDistinct(frame: seq<int>, width: nat, height: nat, prev: Option<seq<int>>, i: nat, j: nat)
    requires |frame| == width * height && (prev.Some? ==> |prev.value| == |frame|)
    requires i < j < |Chosen(frame, width, height, prev)|
    ensures var c := Chosen(frame, width, height, prev);
      (c[i].gridX, c[i].gridY) != (c[j].gridX, c[j].gridY)
  {
    var ranked := RankedRegions(frame, width, height, prev, GridSize, MotionThreshold);
    var c := Chosen(frame, width, height, prev);
    PickedApart(ranked, Min(MaxExamined, |ranked|), false);
    assert Apart(c[i], c[j], false);
  }

  /** The notes come in non-increasing delta order, and the strongest moving region is always the first. */
  lemma ChosenOrder(frame: seq<int>, width: nat, height: nat, prev: Option<seq<int>>)
    requires |frame| == width * height && (prev.Some? ==> |prev.value| == |frame|)
    ensures var c := Chosen(frame, width, height, prev);
      forall i, j :: 0 <= i < j < |c| ==> c[i].delta >= c[j].delta
    ensures var ranked := RankedRegions(frame, width, height, prev, GridSize, MotionThreshold);
      ranked != [] ==> Chosen(frame, width, height, prev) != [] && Chosen(frame, width, height, prev)[0] == ranked[0]
  {
    var ranked := RankedRegions(frame, width, height, prev, GridSize, MotionThreshold);
    var k := Min(MaxExamined, |ranked|);
    RankedRegionsMoving(frame, width, height, prev, GridSize, MotionThreshold);
    PickedDescending(ranked, k, false);
    if ranked != [] {
      FirstIsPicked(ranked, k, false);
    }
  }

  /** A region among the first eight that did not become a note shares the cell of a note. */
  lemma SkippedSharesCell(frame: seq<int>, width: nat, height: nat, prev: Option<seq<int>>, i: nat)
    requires |frame| == width * height && (prev.Some? ==> |prev.value| == |frame|)
    requires i < Min(MaxExamined, |RankedRegions(frame, width, height, prev, GridSize, MotionThreshold)|)
    ensures var r := RankedRegions(frame, width, height, prev, GridSize, MotionThreshold)[i];
      var c := Chosen(frame, width, height, prev);
      exists j :: 0 <= j < |c| && c[j].gridX == r.gridX && c[j].gridY == r.gridY
  {
    var ranked := RankedRegions(frame, width, height, prev, GridSize, MotionThreshold);
    var c := Chosen(frame, width, height, prev);
    ExaminedNearNote(ranked, Min(MaxExamined, |ranked|), false, i);
    var j :| 0 <= j < |c| && CellOf(ranked[i]) in Blocked(c[j].gridX, c[j].gridY, false);
  }

  /** Neighbouring cells are not blocked: two regions in adjacent cells both become notes. */
  lemma NeighboursBothPlay(a: Region, b: Region)
    requires a.gridX + 1 == b.gridX && a.gridY == b.gridY
    ensures Picked([a, b], 2, false).chosen == [a, b]
  {
    assert Picked([a, b], 1, false) == Pick([a], {(a.gridX, a.gridY)});
  }
}

/**
 * What the two grid mappers of the browser versions share
 * (present/synthesis-methods/grids/hex-tonnetz.js and
 * synthesis-methods/grids/circle-of-fifths.js): the filtered frequency table, the note
 * record they return, the day/night amplitude and harmonics of a note, and the
 * `usedCells` loop that keeps at most one note per grid cell (hex-tonnetz also blocks the
 * eight neighbouring cells).
 *
 * Frequencies are semitone indices above minFreq = 100 Hz: entry k of the table is
 * 100 * 2^(k/12) Hz, so multiplying by 2^(s/12) adds s to the index.
 */
module GridNotes {
  import opened Wrappers
  import opened Motion
  import opened StableSort

  const NotesPerOctave: nat := 12
  const Octaves: nat := 5

  /** maxFreq = 3200 Hz = 100 * 2^5 Hz: entry k passes `freq <= maxFreq` exactly when k <= 60. */
  const MaxIndex: int := 60

  /** A note as the mappers return it: the table index of its pitch, its gain, its harmonics (indices) and its pan. */
  datatype Note = Note(pitch: int, intensity: real, harmonics: seq<int>, pan: real)

  /** The sort key of `(a, b) => b.intensity - a.intensity`. */
  function ByIntensity(n: Note): real {
    n.intensity
  }

  /** What a mapper returns: the notes, the copy of the frame for the next comparison, and the mean intensity. */
  datatype MapResult = MapResult(notes: seq<Note>, newFrameData: seq<int>, avgIntensity: Option<real>)

  // ---------------------------------------------------------------- the table

  /**
   * The module-level loops: for each octave and note the entry `100 * 2^(octave + note / 12)`
   * is pushed when it is at most 3200 Hz. All five octaves stay below the bound, so the
   * table has sixty entries and entry k is index k.
   */
  method BuildFrequencies() returns (frequencies: seq<int>)
    ensures |frequencies| == Octaves * NotesPerOctave
    ensures forall k :: 0 <= k < |frequencies| ==> frequencies[k] == k
  {
    frequencies := [];
    var octave := 0;
    while octave < Octaves
      invariant 0 <= octave <= Octaves && |frequencies| == octave * NotesPerOctave
      invariant forall k :: 0 <= k < |frequencies| ==> frequencies[k] == k
    {
      var note := 0;
      while note < NotesPerOctave
        invariant 0 <= note <= NotesPerOctave && |frequencies| == octave * NotesPerOctave + note
        invariant forall k :: 0 <= k < |frequencies| ==> frequencies[k] == k
      {
        var freq := octave * NotesPerOctave + note;
        if freq <= MaxIndex {
          frequencies := frequencies + [freq];
        }
        note := note + 1;
      }
      octave := octave + 1;
    }
  }

  /** The table the loops build: sixty entries, entry k being index k. */
  ghost predicate IsTable(frequencies: seq<int>) {
    |frequencies| == Octaves * NotesPerOctave && forall k :: 0 <= k < |frequencies| ==> frequencies[k] == k
  }

  // ---------------------------------------------------------------- a note

  /** `dayNightMode === 'day' ? 0.02 + (intensity / 255) * 0.06 : 0.08 - (intensity / 255) * 0.06`. */
  function Amplitude(intensity: int, dayNightMode: string): real {
    if dayNightMode == "day" then 0.02 + (intensity as real / 255.0) * 0.06
    else 0.08 - (intensity as real / 255.0) * 0.06
  }

  /**
   * For a byte the amplitude lies in [0.02, 0.08]; by day it grows with the intensity, by
   * night it falls, and the two modes mirror each other around 0.05.
   */
  lemma AmplitudeRange(i: int, j: int, dayNightMode: string)
    requires 0 <= i <= j <= 255
    ensures 0.02 <= Amplitude(i, dayNightMode) <= 0.08
    ensures dayNightMode == "day" ==> Amplitude(i, dayNightMode) <= Amplitude(j, dayNightMode)
    ensures dayNightMode != "day" ==> Amplitude(i, dayNightMode) >= Amplitude(j, dayNightMode)
    ensures Amplitude(i, "day") + Amplitude(i, "night") == 0.1
  {
  }

  /** `[freq * 2^(7/12), freq * 2^(4/12)]`: a fifth and a major third above. */
  function Harmonics(pitch: int): seq<int> {
    [pitch + 7, pitch + 4]
  }

  // ---------------------------------------------------------------- used cells

  /** The cell (gridX, gridY) with its eight neighbours. */
  function Neighbourhood(x: int, y: int): set<(int, int)> {
    {(x - 1, y - 1), (x, y - 1), (x + 1, y - 1),
     (x - 1, y), (x, y), (x + 1, y),
     (x - 1, y + 1), (x, y + 1), (x + 1, y + 1)}
  }

  /** The cells a note at (x, y) adds to `usedCells`: its own, and its neighbours when they are blocked. */
  function Blocked(x: int, y: int, neighbours: bool): set<(int, int)> {
    if neighbours then Neighbourhood(x, y) else {(x, y)}
  }

  function CellOf(r: Region): (int, int) {
    (r.gridX, r.gridY)
  }

  /** The regions that became notes and the blocked cells, after some iterations of the note loop. */
  datatype Pick = Pick(chosen: seq<Region>, used: set<(int, int)>)

  /** The note loop over the first k ranked regions: a region whose cell is used is skipped. */
  function Picked(ranked: seq<Region>, k: nat, neighbours: bool): (p: Pick)
    requires k <= |ranked|
    ensures |p.chosen| <= k
  {
    if k == 0 then Pick([], {})
    else
      var p := Picked(ranked, k - 1, neighbours);
      var r := ranked[k - 1];
      if CellOf(r) in p.used then p
      else Pick(p.chosen + [r], p.used + Blocked(r.gridX, r.gridY, neighbours))
  }

  /** The cells blocked by the notes chosen. */
  function UsedBy(chosen: seq<Region>, neighbours: bool): set<(int, int)> {
    if chosen == [] then {}
    else
      var r := chosen[|chosen| - 1];
      UsedBy(chosen[..|chosen| - 1], neighbours) + Blocked(r.gridX, r.gridY, neighbours)
  }

  /** Two note cells are apart: not within one step in both directions, or merely different when neighbours are not blocked. */
  predicate Apart(a: Region, b: Region, neighbours: bool) {
    if neighbours then Abs(a.gridX - b.gridX) >= 2 || Abs(a.gridY - b.gridY) >= 2
    else CellOf(a) != CellOf(b)
  }

  /** The neighbourhood of (x, y) is exactly the cells within one step of it in both directions. */
  lemma InNeighbourhood(x: int, y: int, c: (int, int))
    ensures c in Neighbourhood(x, y) <==> Abs(c.0 - x) <= 1 && Abs(c.1 - y) <= 1
  {
    var dx, dy := c.0 - x, c.1 - y;
    if Abs(dx) <= 1 && Abs(dy) <= 1 {
      assert dx == -1 || dx == 0 || dx == 1;
      assert dy == -1 || dy == 0 || dy == 1;
    }
  }

  /** `usedCells` holds exactly the cells blocked by the notes chosen so far. */
  lemma {:induction false} PickedUsed(ranked: seq<Region>, k: nat, neighbours: bool)
    requires k <= |ranked|
    ensures Picked(ranked, k, neighbours).used == UsedBy(Picked(ranked, k, neighbours).chosen, neighbours)
  {
    if k > 0 {
      PickedUsed(ranked, k - 1, neighbours);
      var p := Picked(ranked, k - 1, neighbours);
      assert (p.chosen + [ranked[k - 1]])[..|p.chosen|] == p.chosen;
    }
  }

  /** A chosen note's cells are all blocked. */
  lemma {:induction false} UsedByCovers(chosen: seq<Region>, neighbours: bool, j: nat)
    requires j < |chosen|
    ensures Blocked(chosen[j].gridX, chosen[j].gridY, neighbours) <= UsedBy(chosen, neighbours)
  {
    if j < |chosen| - 1 {
      UsedByCovers(chosen[..|chosen| - 1], neighbours, j);
    }
  }

  /** A region whose cell is not blocked by a note is apart from it. */
  lemma ApartFromUnblocked(a: Region, r: Region, neighbours: bool)
    requires CellOf(r) !in Blocked(a.gridX, a.gridY, neighbours)
    ensures Apart(a, r, neighbours)
  {
    if neighbours && Abs(a.gridX - r.gridX) < 2 && Abs(a.gridY - r.gridY) < 2 {
      InNeighbourhood(a.gridX, a.gridY, CellOf(r));
    }
  }

  /**
   * The notes' cells are pairwise apart: no two notes share a cell, and with neighbour
   * blocking any two differ by at least 2 in x or in y.
   */
  lemma {:induction false} PickedApart(ranked: seq<Region>, k: nat, neighbours: bool)
    requires k <= |ranked|
    ensures forall i, j :: 0 <= i < j < |Picked(ranked, k, neighbours).chosen| ==>
      Apart(Picked(ranked, k, neighbours).chosen[i], Picked(ranked, k, neighbours).chosen[j], neighbours)
  {
    if k > 0 {
      PickedApart(ranked, k - 1, neighbours);
      var p := Picked(ranked, k - 1, neighbours);
      var r := ranked[k - 1];
      if CellOf(r) !in p.used {
        PickedUsed(ranked, k - 1, neighbours);
        var c := p.chosen + [r];
        forall i, j | 0 <= i < j < |c|
          ensures Apart(c[i], c[j], neighbours)
        {
          if j == |p.chosen| {
            UsedByCovers(p.chosen, neighbours, i);
            ApartFromUnblocked(p.chosen[i], r, neighbours);
          } else {
            assert c[i] == p.chosen[i] && c[j] == p.chosen[j];
          }
        }
      }
    }
  }

  /** `usedCells` only grows. */
  lemma PickedGrows(ranked: seq<Region>, k: nat, neighbours: bool)
    requires 0 < k <= |ranked|
    ensures Picked(ranked, k - 1, neighbours).used <= Picked(ranked, k, neighbours).used
    ensures Picked(ranked, k - 1, neighbours).chosen <= Picked(ranked, k, neighbours).chosen
  {
  }

  /**
   * The loop is greedy: every region examined ends up in a blocked cell, so a region that was
   * skipped lies in (or, with neighbour blocking, next to) the cell of an earlier note.
   */
  lemma {:induction false} PickedCoversExamined(ranked: seq<Region>, k: nat, neighbours: bool, i: nat)
    requires i < k <= |ranked|
    ensures CellOf(ranked[i]) in Picked(ranked, k, neighbours).used
  {
    PickedGrows(ranked, k, neighbours);
    if i < k - 1 {
      PickedCoversExamined(ranked, k - 1, neighbours, i);
    } else {
      var r := ranked[i];
      var p := Picked(ranked, k - 1, neighbours);
      if CellOf(r) !in p.used {
        assert CellOf(r) in Blocked(r.gridX, r.gridY, neighbours);
      }
    }
  }

  /** A blocked cell is blocked by one of the notes chosen. */
  lemma {:induction false} UsedByWitness(chosen: seq<Region>, neighbours: bool, c: (int, int))
    requires c in UsedBy(chosen, neighbours)
    ensures exists j :: 0 <= j < |chosen| && c in Blocked(chosen[j].gridX, chosen[j].gridY, neighbours)
  {
    var last := |chosen| - 1;
    if c !in Blocked(chosen[last].gridX, chosen[last].gridY, neighbours) {
      UsedByWitness(chosen[..last], neighbours, c);
      var j :| 0 <= j < last && c in Blocked(chosen[..last][j].gridX, chosen[..last][j].gridY, neighbours);
      assert chosen[..last][j] == chosen[j];
    }
  }

  /**
   * Every region examined and skipped lies in a cell blocked by a note: the loop is greedy,
   * so each of the first k ranked regions is a note or shares (or, with neighbour blocking,
   * touches) the cell of one.
   */
  lemma ExaminedNearNote(ranked: seq<Region>, k: nat, neighbours: bool, i: nat)
    requires i < k <= |ranked|
    ensures exists j :: (0 <= j < |Picked(ranked, k, neighbours).chosen|
      && CellOf(ranked[i]) in Blocked(Picked(ranked, k, neighbours).chosen[j].gridX,
                                      Picked(ranked, k, neighbours).chosen[j].gridY, neighbours))
  {
    PickedCoversExamined(ranked, k, neighbours, i);
    PickedUsed(ranked, k, neighbours);
    UsedByWitness(Picked(ranked, k, neighbours).chosen, neighbours, CellOf(ranked[i]));
  }

  /** The notes come from the regions examined, in ranking order. */
  lemma {:induction false} PickedFromRanked(ranked: seq<Region>, k: nat, neighbours: bool)
    requires k <= |ranked|
    ensures forall j :: 0 <= j < |Picked(ranked, k, neighbours).chosen| ==> Picked(ranked, k, neighbours).chosen[j] in ranked[..k]
  {
    if k > 0 {
      PickedFromRanked(ranked, k - 1, neighbours);
      var before := Picked(ranked, k - 1, neighbours).chosen;
      var c := Picked(ranked, k, neighbours).chosen;
      assert c == before || c == before + [ranked[k - 1]];
      assert ranked[..k] == ranked[..k - 1] + [ranked[k - 1]];
      forall j | 0 <= j < |c|
        ensures c[j] in ranked[..k]
      {
        if j < |before| {
          assert c[j] == before[j] && before[j] in ranked[..k - 1];
        } else {
          assert c[j] == ranked[k - 1];
        }
      }
    }
  }

  /** With the regions ranked by delta, every note's region moved at least as much as any region not yet examined. */
  lemma {:induction false} PickedDominates(ranked: seq<Region>, k: nat, neighbours: bool)
    requires k <= |ranked| && Descending(ranked, ByDelta)
    ensures forall j, m :: 0 <= j < |Picked(ranked, k, neighbours).chosen| && k <= m < |ranked| ==>
      Picked(ranked, k, neighbours).chosen[j].delta >= ranked[m].delta
  {
    if k > 0 {
      PickedDominates(ranked, k - 1, neighbours);
      var before := Picked(ranked, k - 1, neighbours).chosen;
      var c := Picked(ranked, k, neighbours).chosen;
      assert c == before || c == before + [ranked[k - 1]];
      forall j, m | 0 <= j < |c| && k <= m < |ranked|
        ensures c[j].delta >= ranked[m].delta
      {
        assert ByDelta(ranked[k - 1]) >= ByDelta(ranked[m]);
        if j < |before| {
          assert c[j] == before[j];
        }
      }
    }
  }

  /** With the regions ranked by delta, the notes come in non-increasing delta order. */
  lemma {:induction false} PickedDescending(ranked: seq<Region>, k: nat, neighbours: bool)
    requires k <= |ranked| && Descending(ranked, ByDelta)
    ensures forall i, j :: 0 <= i < j < |Picked(ranked, k, neighbours).chosen| ==>
      Picked(ranked, k, neighbours).chosen[i].delta >= Picked(ranked, k, neighbours).chosen[j].delta
  {
    if k > 0 {
      PickedDescending(ranked, k - 1, neighbours);
      PickedDominates(ranked, k - 1, neighbours);
      var before := Picked(ranked, k - 1, neighbours).chosen;
      var c := Picked(ranked, k, neighbours).chosen;
      if c != before {
        assert c == before + [ranked[k - 1]];
        forall i, j | 0 <= i < j < |c|
          ensures c[i].delta >= c[j].delta
        {
          assert c[i] == before[i];
          if j < |before| {
            assert c[j] == before[j];
          }
        }
      }
    }
  }

  /** The strongest region always becomes the first note. */
  lemma FirstIsPicked(ranked: seq<Region>, k: nat, neighbours: bool)
    requires 0 < k <= |ranked|
    ensures |Picked(ranked, k, neighbours).chosen| > 0 && Picked(ranked, k, neighbours).chosen[0] == ranked[0]
  {
    if k > 1 {
      FirstIsPicked(ranked, k - 1, neighbours);
    }
  }

  /** The loops over dy and dx in -1 .. 1 that add the eight neighbours of (x, y). */
  method BlockNeighbours(used: set<(int, int)>, x: int, y: int) returns (used': set<(int, int)>)
    requires (x, y) in used
    ensures used' == used + Neighbourhood(x, y)
  {
    used' := used;
    var dy := -1;
    while dy <= 1
      invariant -1 <= dy <= 2
      invariant used' == used + set c | c in Neighbourhood(x, y) && c.1 < y + dy
    {
      var dx := -1;
      while dx <= 1
        invariant -1 <= dx <= 2
        invariant used' == used + (set c | c in Neighbourhood(x, y) && c.1 < y + dy)
                                 + (set c | c in Neighbourhood(x, y) && c.1 == y + dy && c.0 < x + dx)
      {
        if !(dx == 0 && dy == 0) {
          used' := used' + {(x + dx, y + dy)};
        }
        dx := dx + 1;
      }
      dy := dy + 1;
    }
  }
}

/**
 * The motion detection the three grid mappers share: every pixel of a
 * width-by-height grayscale frame whose byte differs from the previous frame's
 * by more than a threshold becomes a moving region, tagged with the grid cell it
 * falls in, in row-major pixel order. web/tonnetz/main.js uses a 16-cell grid and
 * threshold 30, hex-tonnetz.js a 32-cell grid and circle-of-fifths.js a 12-cell
 * grid, both with threshold 50. The mean intensity the latter two compute is here
 * too.
 */
module Motion {
  import opened Wrappers
  import opened Arith
  import opened StableSort

  /** A moving pixel: its grid cell, its current byte and its absolute change. */
  datatype Region = Region(gridX: int, gridY: int, intensity: int, delta: int)

  /** The sort key of `(a, b) => b.delta - a.delta`. */
  function ByDelta(r: Region): real {
    r.delta as real
  }

  /** What a Uint8ClampedArray holds. */
  ghost predicate Bytes(s: seq<int>) {
    forall i :: 0 <= i < |s| ==> 0 <= s[i] <= 255
  }

  function Abs(x: int): (r: nat)
    ensures r == x || r == -x
  {
    if x < 0 then -x else x
  }

  /** `Math.floor(x / (extent / cells))`, evaluated exactly. */
  function Cell(x: nat, extent: nat, cells: nat): int
    requires extent > 0
  {
    (cells * x) / extent
  }

  /** A coordinate inside the frame falls in one of the cells. */
  lemma CellInGrid(x: nat, extent: nat, cells: nat)
    requires x < extent && cells > 0
    ensures 0 <= Cell(x, extent, cells) < cells
  {
    ScaledIndexBound(cells, x, extent);
  }

  /** Whether two frames are width-by-height byte grids. */
  predicate Shaped(frame: seq<int>, prev: seq<int>, width: nat, height: nat) {
    |frame| == |prev| == width * height
  }

  /** The byte of pixel (x, y), at row-major index y * width + x. */
  function PixelAt(frame: seq<int>, width: nat, height: nat, y: nat, x: nat): int
    requires |frame| == width * height && y < height && x < width
  {
    RowMajorBound(y, width, x, height);
    frame[y * width + x]
  }

  /** How much pixel (x, y) changed. */
  function Delta(frame: seq<int>, prev: seq<int>, width: nat, height: nat, y: nat, x: nat): nat
    requires Shaped(frame, prev, width, height) && y < height && x < width
  {
    Abs(PixelAt(frame, width, height, y, x) - PixelAt(prev, width, height, y, x))
  }

  /** The region pixel (x, y) gives: its cell, its current byte and its change. */
  function PixelRegion(frame: seq<int>, prev: seq<int>, width: nat, height: nat, cells: nat, y: nat, x: nat): Region
    requires Shaped(frame, prev, width, height) && y < height && x < width
  {
    Region(Cell(x, width, cells), Cell(y, height, cells), PixelAt(frame, width, height, y, x), Delta(frame, prev, width, height, y, x))
  }

  /** The regions of the first n pixels of row y, left to right. */
  function RowRegions(frame: seq<int>, prev: seq<int>, width: nat, height: nat, cells: nat, threshold: int, y: nat, n: nat): (r: seq<Region>)
    requires Shaped(frame, prev, width, height) && y < height && n <= width
    ensures |r| <= n
  {
    if n == 0 then []
    else
      var x := n - 1;
      RowRegions(frame, prev, width, height, cells, threshold, y, x)
        + if Delta(frame, prev, width, height, y, x) > threshold then [PixelRegion(frame, prev, width, height, cells, y, x)] else []
  }

  /** The regions of the first rows rows, top to bottom: what the detection loops collect. */
  function Regions(frame: seq<int>, prev: seq<int>, width: nat, height: nat, cells: nat, threshold: int, rows: nat): (r: seq<Region>)
    requires Shaped(frame, prev, width, height) && rows <= height
  {
    if rows == 0 then []
    else Regions(frame, prev, width, height, cells, threshold, rows - 1) + RowRegions(frame, prev, width, height, cells, threshold, rows - 1, width)
  }

  /** The inner loop over row y: extends the regions of the rows above by that row's. */
  method ScanRow(frame: seq<int>, p: seq<int>, width: nat, height: nat, cells: nat, threshold: int, y: nat, above: seq<Region>)
    returns (regions: seq<Region>)
    requires Shaped(frame, p, width, height) && y < height
    ensures regions == above + RowRegions(frame, p, width, height, cells, threshold, y, width)
  {
    regions := above;
    var x := 0;
    while x < width
      invariant 0 <= x <= width
      invariant regions == above + RowRegions(frame, p, width, height, cells, threshold, y, x)
    {
      var intensity := PixelAt(frame, width, height, y, x);
      var delta := Abs(intensity - PixelAt(p, width, height, y, x));
      if delta > threshold {
        regions := regions + [Region(Cell(x, width, cells), Cell(y, height, cells), intensity, delta)];
      }
      x := x + 1;
    }
  }

  /** The moving regions of a frame against an optional previous frame: none without one. */
  function Detected(frame: seq<int>, width: nat, height: nat, prev: Option<seq<int>>, cells: nat, threshold: int): seq<Region>
    requires |frame| == width * height && (prev.Some? ==> |prev.value| == |frame|)
  {
    if prev.None? then [] else Regions(frame, prev.value, width, height, cells, threshold, height)
  }

  /** Detected regions lie in the grid and moved by more than the threshold. */
  lemma DetectedAreMoving(frame: seq<int>, width: nat, height: nat, prev: Option<seq<int>>, cells: nat, threshold: int)
    requires |frame| == width * height && (prev.Some? ==> |prev.value| == |frame|) && cells > 0
    ensures AllMoving(Detected(frame, width, height, prev, cells, threshold), cells, threshold)
  {
    if prev.Some? {
      RegionsAreMoving(frame, prev.value, width, height, cells, threshold, height);
    }
  }

  /**
   * `detectMotion`: with no previous frame there are no regions; otherwise every pixel
   * (x, y), visited row by row, that moved by more than the threshold gives one.
   */
  method DetectMotion(frame: seq<int>, width: nat, height: nat, prev: Option<seq<int>>, cells: nat, threshold: int)
    returns (regions: seq<Region>)
    requires |frame| == width * height
    requires prev.Some? ==> |prev.value| == |frame|
    ensures regions == Detected(frame, width, height, prev, cells, threshold)
  {
    regions := [];
    if prev.Some? {
      var p := prev.value;
      var y := 0;
      while y < height
        invariant 0 <= y <= height
        invariant regions == Regions(frame, p, width, height, cells, threshold, y)
      {
        regions := ScanRow(frame, p, width, height, cells, threshold, y, regions);
        y := y + 1;
      }
    }
  }

  /** Region r is the region of a pixel (x, y) of the first rows rows that moved by more than the threshold. */
  ghost predicate FromPixel(frame: seq<int>, prev: seq<int>, width: nat, height: nat, cells: nat, threshold: int, rows: nat, r: Region)
    requires Shaped(frame, prev, width, height) && rows <= height
  {
    exists y, x :: 0 <= y < rows && 0 <= x < width
      && r == PixelRegion(frame, prev, width, height, cells, y, x) && Delta(frame, prev, width, height, y, x) > threshold
  }

  /** Region r moved by more than the threshold and lies in the cells-by-cells grid. */
  predicate Moving(r: Region, cells: nat, threshold: int) {
    r.delta > threshold && 0 <= r.gridX < cells && 0 <= r.gridY < cells
  }

  /** Every region of rs moved by more than the threshold and lies in the grid. */
  ghost predicate AllMoving(rs: seq<Region>, cells: nat, threshold: int) {
    forall r :: r in rs ==> Moving(r, cells, threshold)
  }

  /** Every region of row y is the region of one of its first n pixels that moved by more than the threshold. */
  lemma {:induction false} RowRegionsFromPixels(frame: seq<int>, prev: seq<int>, width: nat, height: nat, cells: nat, threshold: int, y: nat, n: nat)
    requires Shaped(frame, prev, width, height) && y < height && n <= width
    ensures forall r :: r in RowRegions(frame, prev, width, height, cells, threshold, y, n) ==>
      exists x :: 0 <= x < n && r == PixelRegion(frame, prev, width, height, cells, y, x) && Delta(frame, prev, width, height, y, x) > threshold
  {
    if n > 0 {
      RowRegionsFromPixels(frame, prev, width, height, cells, threshold, y, n - 1);
    }
  }

  /** Every region is the region of some pixel (x, y) of the frame that moved by more than the threshold. */
  lemma {:induction false} RegionsFromPixels(frame: seq<int>, prev: seq<int>, width: nat, height: nat, cells: nat, threshold: int, rows: nat)
    requires Shaped(frame, prev, width, height) && rows <= height
    ensures forall r :: r in Regions(frame, prev, width, height, cells, threshold, rows) ==>
      FromPixel(frame, prev, width, height, cells, threshold, rows, r)
  {
    if rows > 0 {
      var above := Regions(frame, prev, width, height, cells, threshold, rows - 1);
      var row := RowRegions(frame, prev, width, height, cells, threshold, rows - 1, width);
      RegionsFromPixels(frame, prev, width, height, cells, threshold, rows - 1);
      RowRegionsFromPixels(frame, prev, width, height, cells, threshold, rows - 1, width);
      forall r: Region | r in above + row
        ensures FromPixel(frame, prev, width, height, cells, threshold, rows, r)
      {
        if r in above {
          var y, x :| 0 <= y < rows - 1 && 0 <= x < width
            && r == PixelRegion(frame, prev, width, height, cells, y, x) && Delta(frame, prev, width, height, y, x) > threshold;
        } else {
          var x :| 0 <= x < width && r == PixelRegion(frame, prev, width, height, cells, rows - 1, x)
            && Delta(frame, prev, width, height, rows - 1, x) > threshold;
        }
      }
    }
  }

  /** Every region moved by more than the threshold and lies in the cells-by-cells grid. */
  lemma RegionsAreMoving(frame: seq<int>, prev: seq<int>, width: nat, height: nat, cells: nat, threshold: int, rows: nat)
    requires Shaped(frame, prev, width, height) && rows <= height && cells > 0
    ensures AllMoving(Regions(frame, prev, width, height, cells, threshold, rows), cells, threshold)
  {
    RegionsFromPixels(frame, prev, width, height, cells, threshold, rows);
    forall r | r in Regions(frame, prev, width, height, cells, threshold, rows)
      ensures Moving(r, cells, threshold)
    {
      var y, x :| 0 <= y < rows && 0 <= x < width
        && r == PixelRegion(frame, prev, width, height, cells, y, x) && Delta(frame, prev, width, height, y, x) > threshold;
      CellInGrid(x, width, cells);
      CellInGrid(y, height, cells);
    }
  }

  /** On a frame of bytes every region's intensity is a byte. */
  lemma RegionIntensities(frame: seq<int>, prev: seq<int>, width: nat, height: nat, cells: nat, threshold: int, rows: nat)
    requires Shaped(frame, prev, width, height) && rows <= height && Bytes(frame)
    ensures forall r :: r in Regions(frame, prev, width, height, cells, threshold, rows) ==> 0 <= r.intensity <= 255
  {
    RegionsFromPixels(frame, prev, width, height, cells, threshold, rows);
    forall r | r in Regions(frame, prev, width, height, cells, threshold, rows)
      ensures 0 <= r.intensity <= 255
    {
      var y, x :| 0 <= y < rows && 0 <= x < width
        && r == PixelRegion(frame, prev, width, height, cells, y, x) && Delta(frame, prev, width, height, y, x) > threshold;
      RowMajorBound(y, width, x, height);
    }
  }

  /** `movingRegions.sort((a, b) => b.delta - a.delta)`: the detected regions in non-increasing delta order. */
  function RankedRegions(frame: seq<int>, width: nat, height: nat, prev: Option<seq<int>>, cells: nat, threshold: int): seq<Region>
    requires |frame| == width * height && (prev.Some? ==> |prev.value| == |frame|)
  {
    SortDesc(Detected(frame, width, height, prev, cells, threshold), ByDelta)
  }

  /**
   * The ranked regions are in non-increasing delta order, each moved by more than the
   * threshold and lies in the grid, each has a byte intensity when the frame is bytes, and
   * there are none on the first frame.
   */
  lemma RankedRegionsMoving(frame: seq<int>, width: nat, height: nat, prev: Option<seq<int>>, cells: nat, threshold: int)
    requires |frame| == width * height && (prev.Some? ==> |prev.value| == |frame|) && cells > 0
    ensures var ranked := RankedRegions(frame, width, height, prev, cells, threshold);
      && Descending(ranked, ByDelta)
      && AllMoving(ranked, cells, threshold)
      && (Bytes(frame) ==> forall r :: r in ranked ==> 0 <= r.intensity <= 255)
      && (prev.None? ==> ranked == [])
  {
    var detected := Detected(frame, width, height, prev, cells, threshold);
    var ranked := RankedRegions(frame, width, height, prev, cells, threshold);
    SortDescIsDescending(detected, ByDelta);
    DetectedAreMoving(frame, width, height, prev, cells, threshold);
    if prev.Some? && Bytes(frame) {
      RegionIntensities(frame, prev.value, width, height, cells, threshold, height);
    }
    forall r | r in ranked
      ensures r in detected
    {
      assert r in multiset(ranked);
    }
  }

  /** Row y yields no region exactly when none of its first n pixels moved by more than the threshold. */
  lemma {:induction false} RowStillIff(frame: seq<int>, prev: seq<int>, width: nat, height: nat, cells: nat, threshold: int, y: nat, n: nat)
    requires Shaped(frame, prev, width, height) && y < height && n <= width
    ensures RowRegions(frame, prev, width, height, cells, threshold, y, n) == []
      <==> forall x :: 0 <= x < n ==> Delta(frame, prev, width, height, y, x) <= threshold
  {
    if n > 0 {
      RowStillIff(frame, prev, width, height, cells, threshold, y, n - 1);
    }
  }

  /** There is no region exactly when no pixel moved by more than the threshold. */
  lemma {:induction false} NoRegionsIffStill(frame: seq<int>, prev: seq<int>, width: nat, height: nat, cells: nat, threshold: int, rows: nat)
    requires Shaped(frame, prev, width, height) && rows <= height
    ensures Regions(frame, prev, width, height, cells, threshold, rows) == []
      <==> forall y, x :: 0 <= y < rows && 0 <= x < width ==> Delta(frame, prev, width, height, y, x) <= threshold
  {
    if rows > 0 {
      NoRegionsIffStill(frame, prev, width, height, cells, threshold, rows - 1);
      RowStillIff(frame, prev, width, height, cells, threshold, rows - 1, width);
    }
  }

  /** An unchanged frame has no moving regions (for a non-negative threshold). */
  lemma StillFrame(frame: seq<int>, width: nat, height: nat, cells: nat, threshold: nat)
    requires |frame| == width * height
    ensures Regions(frame, frame, width, height, cells, threshold, height) == []
  {
    NoRegionsIffStill(frame, frame, width, height, cells, threshold, height);
  }

  function Sum(s: seq<int>): int {
    if s == [] then 0 else Sum(s[..|s| - 1]) + s[|s| - 1]
  }

  /** The mean intensity over a frame; JavaScript's 0 / 0 is NaN, here None. */
  function Average(frame: seq<int>): (avg: Option<real>)
    ensures avg.None? <==> frame == []
  {
    if frame == [] then None else Some(Sum(frame) as real / |frame| as real)
  }

  /** `avgIntensity`: the sum over the frame divided by its length, NaN (None) for an empty frame. */
  method Mean(frame: seq<int>) returns (avg: Option<real>)
    ensures frame == [] ==> avg == None
    ensures frame != [] ==> avg == Some(Sum(frame) as real / |frame| as real)
  {
    var total := 0;
    var i := 0;
    while i < |frame|
      invariant 0 <= i <= |frame| && total == Sum(frame[..i])
    {
      assert frame[..i + 1][..i] == frame[..i];
      total := total + frame[i];
      i := i + 1;
    }
    assert frame[..|frame|] == frame;
    if |frame| == 0 {
      return None;
    }
    return Some(total as real / |frame| as real);
  }

  /** The sum of bytes lies between 0 and 255 per entry. */
  lemma {:induction false} SumOfBytes(s: seq<int>)
    requires Bytes(s)
    ensures 0 <= Sum(s) <= 255 * |s|
  {
    if s != [] {
      SumOfBytes(s[..|s| - 1]);
    }
  }

  /** The mean of a non-empty byte frame lies in [0, 255]. */
  lemma MeanOfBytes(s: seq<int>)
    requires Bytes(s) && s != []
    ensures 0.0 <= Sum(s) as real / |s| as real <= 255.0
  {
    SumOfBytes(s);
    QuotientBound(Sum(s) as real, |s| as real, 255.0);
  }

  lemma QuotientBound(a: real, b: real, c: real)
    requires b > 0.0 && 0.0 <= a <= c * b
    ensures 0.0 <= a / b <= c
  {
  }

  /** A frame of n equal bytes c sums to n * c, so its mean is c. */
  lemma {:induction false} SumOfConstant(s: seq<int>, c: int)
    requires forall i :: 0 <= i < |s| ==> s[i] == c
    ensures Sum(s) == |s| * c
  {
    if s != [] {
      SumOfConstant(s[..|s| - 1], c);
    }
  }
}

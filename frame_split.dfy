/**
 * The left/right frame split of the browser versions' `playAudio` (web/tonnetz/main.js,
 * future/web/audio-processor.js and past/web/v0.9.8.5/web/audio-processor.js use the
 * same two nested copy loops): each row's first width/2 bytes go to the left half and the
 * rest to the right half.
 */
module FrameSplit {
  import opened Arith
  import opened Motion

  /** Pixels offset .. offset + n - 1 of row y. */
  function RowSlice(frame: seq<int>, width: nat, height: nat, offset: nat, y: nat, n: nat): (r: seq<int>)
    requires |frame| == width * height && offset + n <= width && y < height
    ensures |r| == n
  {
    if n == 0 then [] else RowSlice(frame, width, height, offset, y, n - 1) + [PixelAt(frame, width, height, y, offset + n - 1)]
  }

  /** Columns [offset, offset + half) of the first rows rows, row by row. */
  function HalfRows(frame: seq<int>, width: nat, height: nat, offset: nat, half: nat, rows: nat): (r: seq<int>)
    requires |frame| == width * height && offset + half <= width && rows <= height
    ensures |r| == rows * half
  {
    if rows == 0 then []
    else
      NextRow(rows - 1, half, rows);
      HalfRows(frame, width, height, offset, half, rows - 1) + RowSlice(frame, width, height, offset, rows - 1, half)
  }

  lemma {:induction false} RowSliceAt(frame: seq<int>, width: nat, height: nat, offset: nat, y: nat, n: nat, x: nat)
    requires |frame| == width * height && offset + n <= width && y < height && x < n
    ensures RowSlice(frame, width, height, offset, y, n)[x] == PixelAt(frame, width, height, y, offset + x)
  {
    if x < n - 1 {
      RowSliceAt(frame, width, height, offset, y, n - 1, x);
    }
  }

  /** Pixel (x, y) of a half is pixel (offset + x, y) of the frame. */
  lemma {:induction false} HalfRowsPixel(frame: seq<int>, width: nat, height: nat, offset: nat, half: nat, rows: nat, y: nat, x: nat)
    requires |frame| == width * height && offset + half <= width && rows <= height
    requires y < rows && x < half
    ensures y * half + x < rows * half
    ensures HalfRows(frame, width, height, offset, half, rows)[y * half + x] == PixelAt(frame, width, height, y, offset + x)
  {
    RowMajorBound(y, half, x, rows);
    if y < rows - 1 {
      RowMajorBound(y, half, x, rows - 1);
      HalfRowsPixel(frame, width, height, offset, half, rows - 1, y, x);
    } else {
      RowSliceAt(frame, width, height, offset, y, half, x);
    }
  }

  /** playAudio's copy loops: the left half gets columns [0, width/2), the right half the rest. */
  method SplitFrame(frame: seq<int>, width: nat, height: nat) returns (left: seq<int>, right: seq<int>)
    requires |frame| == width * height && width % 2 == 0
    ensures left == HalfRows(frame, width, height, 0, width / 2, height)
    ensures right == HalfRows(frame, width, height, width / 2, width / 2, height)
  {
    var halfWidth := width / 2;
    left, right := [], [];
    var y := 0;
    while y < height
      invariant 0 <= y <= height
      invariant left == HalfRows(frame, width, height, 0, halfWidth, y)
      invariant right == HalfRows(frame, width, height, halfWidth, halfWidth, y)
    {
      left, right := CopyRow(frame, width, height, y, left, right);
      y := y + 1;
    }
  }

  /** The inner copy loop for row y: its left half is appended to left, its right half to right. */
  method CopyRow(frame: seq<int>, width: nat, height: nat, y: nat, left: seq<int>, right: seq<int>)
    returns (left': seq<int>, right': seq<int>)
    requires |frame| == width * height && width % 2 == 0 && y < height
    ensures left' == left + RowSlice(frame, width, height, 0, y, width / 2)
    ensures right' == right + RowSlice(frame, width, height, width / 2, y, width / 2)
  {
    var halfWidth := width / 2;
    left', right' := left, right;
    var x := 0;
    while x < halfWidth
      invariant 0 <= x <= halfWidth
      invariant left' == left + RowSlice(frame, width, height, 0, y, x)
      invariant right' == right + RowSlice(frame, width, height, halfWidth, y, x)
    {
      left' := left' + [PixelAt(frame, width, height, y, x)];
      right' := right' + [PixelAt(frame, width, height, y, x + halfWidth)];
      x := x + 1;
    }
  }

  /**
   * Every pixel lands in exactly one half: pixel (x, y) is pixel (x, y) of the left half when
   * x < width/2, and pixel (x - width/2, y) of the right half otherwise; each half is
   * (width/2) * height pixels.
   */
  lemma SplitCoversFrame(frame: seq<int>, width: nat, height: nat, y: nat, x: nat)
    requires |frame| == width * height && width % 2 == 0 && y < height && x < width
    ensures var half := width / 2;
      var left := HalfRows(frame, width, height, 0, half, height);
      var right := HalfRows(frame, width, height, half, half, height);
      && |left| == |right| == half * height
      && PixelAt(frame, width, height, y, x)
         == if x < half then PixelAt(left, half, height, y, x) else PixelAt(right, half, height, y, x - half)
  {
    var half := width / 2;
    if x < half {
      HalfRowsPixel(frame, width, height, 0, half, height, y, x);
    } else {
      HalfRowsPixel(frame, width, height, half, half, height, y, x - half);
    }
  }
}

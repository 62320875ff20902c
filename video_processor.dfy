/**
 * The Python prototype's image analysis: a Gabor kernel factory, the fixed
 * four-orientation filter bank, and the left/right mean over all filter responses.
 *
 * numpy's `exp`, `cos`, `sin` and the constant `pi` are not interpreted: they are
 * passed in as a `Transcendentals` record, and each lemma states the one fact about
 * them it relies on. `scipy.signal.convolve2d(img, k, mode='same')` is passed in as
 * a function too; the only fact used about it is that its output has the shape of
 * its first argument.
 */
module VideoProcessor {

  /** numpy's transcendental functions and its constant pi, left uninterpreted. */
  datatype Transcendentals = Transcendentals(pi: real, exp: real -> real, cos: real -> real, sin: real -> real)

  /** A 2-D array as a sequence of rows. */
  type Matrix = seq<seq<real>>

  /** `scipy.signal.convolve2d(image, kernel, mode='same')`, supplied by the caller. */
  type Convolution = (Matrix, Matrix) -> Matrix

  /** m has the given number of rows, each of the given length. */
  ghost predicate IsMatrix(m: Matrix, rows: nat, cols: nat) {
    |m| == rows && forall i :: 0 <= i < |m| ==> |m[i]| == cols
  }

  /** a and b have the same number of rows and equally long rows. */
  ghost predicate SameShape(a: Matrix, b: Matrix) {
    |a| == |b| && forall i :: 0 <= i < |a| ==> |a[i]| == |b[i]|
  }

  /** What mode='same' promises: the output has the shape of the image. */
  ghost predicate KeepsShape(conv: Convolution) {
    forall image, kernel :: SameShape(conv(image, kernel), image)
  }

  // ---------------------------------------------------------------- kernel factory

  /** `np.arange(lo, hi)`: the integers lo, lo + 1, ..., hi - 1. */
  function Arange(lo: int, hi: int): (r: seq<int>)
    ensures |r| == if lo < hi then hi - lo else 0
    ensures forall i :: 0 <= i < |r| ==> r[i] == lo + i
    decreases hi - lo
  {
    if hi <= lo then [] else [lo] + Arange(lo + 1, hi)
  }

  /**
   * The kernel's offsets, `np.arange(-size//2, size//2+1)`. Python parses `-size//2`
   * as `(-size)//2`, and Python's `//` by 2 is Dafny's `/` by 2 (both round down).
   */
  function KernelOffsets(size: int): seq<int> {
    Arange((-size) / 2, size / 2 + 1)
  }

  /**
   * The offsets run from (-size)//2 up to size//2 inclusive, so there are size + 1 of
   * them: 32 for the bank's size 31, from -16 to 15.
   */
  lemma KernelOffsetsSpan(size: int)
    requires size >= 0
    ensures |KernelOffsets(size)| == size + 1
    ensures KernelOffsets(size)[0] == (-size) / 2
    ensures KernelOffsets(size)[size] == size / 2
    ensures size == 31 ==> KernelOffsets(size)[0] == -16 && KernelOffsets(size)[size] == 15
  {
  }

  /** x_rot = x cos(theta) + y sin(theta). */
  function RotX(x: real, y: real, c: real, s: real): real {
    x * c + y * s
  }

  /** y_rot = -x sin(theta) + y cos(theta). */
  function RotY(x: real, y: real, c: real, s: real): real {
    -x * s + y * c
  }

  /** The squared radius x_rot^2 + y_rot^2. */
  function Radius2(xr: real, yr: real): real {
    xr * xr + yr * yr
  }

  /** The envelope's exponent -r2 / (2 sigma^2). */
  function Exponent(r2: real, sigma: real): real
    requires sigma != 0.0
  {
    -r2 / (2.0 * (sigma * sigma))
  }

  /** The carrier's phase 2 pi frequency x_rot. */
  function Phase(pi: real, frequency: real, xr: real): real {
    2.0 * pi * frequency * xr
  }

  /** The Gaussian envelope exp(-(x_rot^2 + y_rot^2) / (2 sigma^2)). */
  function Envelope(t: Transcendentals, x: int, y: int, theta: real, sigma: real): real
    requires sigma != 0.0
  {
    var xr := RotX(x as real, y as real, t.cos(theta), t.sin(theta));
    var yr := RotY(x as real, y as real, t.cos(theta), t.sin(theta));
    t.exp(Exponent(Radius2(xr, yr), sigma))
  }

  /** The carrier cos(2 pi frequency x_rot). */
  function Carrier(t: Transcendentals, x: int, y: int, theta: real, frequency: real): real {
    var xr := RotX(x as real, y as real, t.cos(theta), t.sin(theta));
    t.cos(Phase(t.pi, frequency, xr))
  }

  /** The kernel's weight at offset (x, y). */
  function GaborValue(t: Transcendentals, x: int, y: int, theta: real, sigma: real, frequency: real): real
    requires sigma != 0.0
  {
    Envelope(t, x, y, theta, sigma) * Carrier(t, x, y, theta, frequency)
  }

  /**
   * `gabor_kernel(size, theta, sigma, frequency)`: row i and column j hold the weight
   * at x = offsets[j], y = offsets[i], as `np.meshgrid` lays them out.
   */
  function GaborKernel(t: Transcendentals, size: int, theta: real, sigma: real, frequency: real): (k: Matrix)
    requires sigma != 0.0
    ensures size >= 0 ==> IsMatrix(k, size + 1, size + 1)
    ensures size == 31 ==> IsMatrix(k, 32, 32)
  {
    var offsets := KernelOffsets(size);
    seq(|offsets|, i requires 0 <= i < |offsets| => KernelRow(t, offsets, offsets[i], theta, sigma, frequency))
  }

  /** One row of the kernel: the weights at x = offsets[j] for a fixed y. */
  function KernelRow(t: Transcendentals, offsets: seq<int>, y: int, theta: real, sigma: real, frequency: real): (row: seq<real>)
    requires sigma != 0.0
    ensures |row| == |offsets|
  {
    seq(|offsets|, j requires 0 <= j < |offsets| => GaborValue(t, offsets[j], y, theta, sigma, frequency))
  }

  /** The kernel's weight at x = offsets[j], y = offsets[i]. */
  lemma GaborKernelAt(t: Transcendentals, size: int, theta: real, sigma: real, frequency: real, i: nat, j: nat)
    requires sigma != 0.0 && size >= 0
    requires i <= size && j <= size
    ensures GaborKernel(t, size, theta, sigma, frequency)[i][j]
         == GaborValue(t, (-size) / 2 + j, (-size) / 2 + i, theta, sigma, frequency)
  {
    var offsets := KernelOffsets(size);
    KernelOffsetAt(size, i);
    KernelOffsetAt(size, j);
    KernelEntry(t, offsets, i, j, theta, sigma, frequency);
  }

  lemma KernelOffsetAt(size: int, i: nat)
    requires 0 <= i <= size
    ensures i < |KernelOffsets(size)| && KernelOffsets(size)[i] == (-size) / 2 + i
  {
    KernelOffsetsSpan(size);
  }

  /** Entry (i, j) of the kernel built on offsets. */
  lemma KernelEntry(t: Transcendentals, offsets: seq<int>, i: nat, j: nat, theta: real, sigma: real, frequency: real)
    requires sigma != 0.0 && i < |offsets| && j < |offsets|
    ensures var k := seq(|offsets|, i requires 0 <= i < |offsets| => KernelRow(t, offsets, offsets[i], theta, sigma, frequency));
      k[i][j] == GaborValue(t, offsets[j], offsets[i], theta, sigma, frequency)
  {
  }

  /** The rotation keeps the squared radius when cos^2 + sin^2 = 1. */
  lemma RotationPreservesRadius(x: real, y: real, c: real, s: real)
    requires c * c + s * s == 1.0
    ensures Radius2(RotX(x, y, c, s), RotY(x, y, c, s)) == Radius2(x, y)
  {
    calc {
      Radius2(RotX(x, y, c, s), RotY(x, y, c, s));
      (x * c + y * s) * (x * c + y * s) + (-x * s + y * c) * (-x * s + y * c);
      (x * x * (c * c) + 2.0 * (x * y) * (c * s) + y * y * (s * s))
        + (x * x * (s * s) - 2.0 * (x * y) * (c * s) + y * y * (c * c));
      x * x * (c * c + s * s) + y * y * (c * c + s * s);
      x * x * 1.0 + y * y * 1.0;
    }
  }

  /** So the envelope does not depend on the orientation. */
  lemma EnvelopeIgnoresTheta(t: Transcendentals, x: int, y: int, theta1: real, theta2: real, sigma: real)
    requires sigma != 0.0
    requires t.cos(theta1) * t.cos(theta1) + t.sin(theta1) * t.sin(theta1) == 1.0
    requires t.cos(theta2) * t.cos(theta2) + t.sin(theta2) * t.sin(theta2) == 1.0
    ensures Envelope(t, x, y, theta1, sigma) == Envelope(t, x, y, theta2, sigma)
  {
    RotationPreservesRadius(x as real, y as real, t.cos(theta1), t.sin(theta1));
    RotationPreservesRadius(x as real, y as real, t.cos(theta2), t.sin(theta2));
  }

  /** At theta = 0 the rotation is the identity, so the kernel is the unrotated Gabor function. */
  lemma UnrotatedKernel(t: Transcendentals, x: int, y: int, sigma: real, frequency: real)
    requires sigma != 0.0
    requires t.cos(0.0) == 1.0 && t.sin(0.0) == 0.0
    ensures RotX(x as real, y as real, t.cos(0.0), t.sin(0.0)) == x as real
    ensures RotY(x as real, y as real, t.cos(0.0), t.sin(0.0)) == y as real
    ensures GaborValue(t, x, y, 0.0, sigma, frequency)
         == t.exp(Exponent(Radius2(x as real, y as real), sigma)) * t.cos(Phase(t.pi, frequency, x as real))
  {
    assert RotX(x as real, y as real, t.cos(0.0), t.sin(0.0)) == x as real;
    assert RotY(x as real, y as real, t.cos(0.0), t.sin(0.0)) == y as real;
  }

  // ---------------------------------------------------------------- filter bank

  /** The bank's orientations 0, pi/4, pi/2, 3 pi/4, in this order. */
  function BankOrientations(t: Transcendentals): seq<real> {
    [0.0, t.pi / 4.0, t.pi / 2.0, 3.0 * t.pi / 4.0]
  }

  /** The bank: `[gabor_kernel(31, theta, 5, 0.1) for theta in orientations]`. */
  function FilterBank(t: Transcendentals): (ks: seq<Matrix>)
    ensures |ks| == 4
    ensures forall k :: 0 <= k < 4 ==> IsMatrix(ks[k], 32, 32)
  {
    var thetas := BankOrientations(t);
    seq(4, k requires 0 <= k < 4 => GaborKernel(t, 31, thetas[k], 5.0, 0.1))
  }

  /** The bank is exactly the four kernels with size 31, sigma 5 and frequency 0.1, in orientation order. */
  lemma FilterBankKernels(t: Transcendentals)
    ensures FilterBank(t) == [GaborKernel(t, 31, 0.0, 5.0, 0.1), GaborKernel(t, 31, t.pi / 4.0, 5.0, 0.1),
                              GaborKernel(t, 31, t.pi / 2.0, 5.0, 0.1), GaborKernel(t, 31, 3.0 * t.pi / 4.0, 5.0, 0.1)]
  {
    var ks := FilterBank(t);
    var thetas := BankOrientations(t);
    assert thetas == [0.0, t.pi / 4.0, t.pi / 2.0, 3.0 * t.pi / 4.0];
    assert ks == [ks[0], ks[1], ks[2], ks[3]];
  }

  /** `[signal.convolve2d(img, k, mode='same') for k in kernels]`. */
  function Responses(conv: Convolution, image: Matrix, kernels: seq<Matrix>): (rs: seq<Matrix>)
    requires KeepsShape(conv)
    ensures |rs| == |kernels|
    ensures forall k :: 0 <= k < |rs| ==> rs[k] == conv(image, kernels[k]) && SameShape(rs[k], image)
  {
    seq(|kernels|, k requires 0 <= k < |kernels| => conv(image, kernels[k]))
  }

  // ---------------------------------------------------------------- aggregation

  /** The column ranges `[:, :160]` and `[:, 160:]` of the 320-wide resized image. */
  datatype Half = Left | Right

  /** Python's slice of one row: columns [0, 160) or [160, end), cut short for a short row. */
  function Part(row: seq<real>, h: Half): seq<real> {
    var mid := if |row| < 160 then |row| else 160;
    if h == Left then row[..mid] else row[mid..]
  }

  function Sum(s: seq<real>): real {
    if s == [] then 0.0 else s[0] + Sum(s[1..])
  }

  /** The sum of f over the elements of s. */
  function SumOf<T>(s: seq<T>, f: T -> real): real {
    if s == [] then 0.0 else f(s[0]) + SumOf(s[1..], f)
  }

  /** The sum of the cells of one half of a matrix. */
  function PartSum(m: Matrix, h: Half): real {
    if m == [] then 0.0 else Sum(Part(m[0], h)) + PartSum(m[1..], h)
  }

  /** The number of cells in one half of a matrix. */
  function PartCount(m: Matrix, h: Half): nat {
    if m == [] then 0 else |Part(m[0], h)| + PartCount(m[1..], h)
  }

  /** The sum of one half's cells over all responses. */
  function BankSum(rs: seq<Matrix>, h: Half): real {
    if rs == [] then 0.0 else PartSum(rs[0], h) + BankSum(rs[1..], h)
  }

  /** The number of one half's cells over all responses. */
  function BankCount(rs: seq<Matrix>, h: Half): nat {
    if rs == [] then 0 else PartCount(rs[0], h) + BankCount(rs[1..], h)
  }

  /**
   * `np.mean([c[:, :160] for c in coeffs], axis=(0, 1, 2))` and its right-hand twin: one
   * mean over all kernels and all cells of the half, with signed values (no abs).
   */
  function BankMean(rs: seq<Matrix>, h: Half): real
    requires BankCount(rs, h) > 0
  {
    BankSum(rs, h) / BankCount(rs, h) as real
  }

  /** The (left, right) energy pair `process_image` returns. */
  datatype EnergyPair = EnergyPair(left: real, right: real)

  /**
   * `process_image` on an image already read as grayscale and resized to 320 x 240
   * (240 rows of 320 columns): the bank, one response per kernel, and the two means.
   */
  function ProcessImage(t: Transcendentals, conv: Convolution, image: Matrix): (e: EnergyPair)
    requires KeepsShape(conv)
    requires IsMatrix(image, 240, 320)
  {
    var rs := Responses(conv, image, FilterBank(t));
    ShapeOfResponses(conv, image, rs);
    ResponseCountsFrom(rs, Left);
    ResponseCountsFrom(rs, Right);
    EnergyPair(BankMean(rs, Left), BankMean(rs, Right))
  }

  // ---------------------------------------------------------------- aggregation lemmas

  lemma {:induction false} SumOfConcat<T>(a: seq<T>, b: seq<T>, f: T -> real)
    ensures SumOf(a + b, f) == SumOf(a, f) + SumOf(b, f)
  {
    if a == [] {
      assert a + b == b;
    } else {
      assert (a + b)[0] == a[0];
      assert (a + b)[1..] == a[1..] + b;
      SumOfConcat(a[1..], b, f);
      calc {
        SumOf(a + b, f);
        f(a[0]) + SumOf(a[1..] + b, f);
        f(a[0]) + SumOf(a[1..], f) + SumOf(b, f);
        SumOf(a, f) + SumOf(b, f);
      }
    }
  }

  /** A sum over a collection does not depend on the order of its elements. */
  lemma {:induction false} SumOfPermutation<T>(a: seq<T>, b: seq<T>, f: T -> real)
    requires multiset(a) == multiset(b)
    ensures SumOf(a, f) == SumOf(b, f)
    decreases |a|
  {
    if a == [] {
      assert |b| == |multiset(b)| == 0;
    } else {
      var x := a[0];
      assert x in multiset(b);
      var k :| 0 <= k < |b| && b[k] == x;
      var rest := b[..k] + b[k + 1..];
      RemoveAt(b, k);
      assert multiset(a) == multiset{x} + multiset(a[1..]) by {
        assert a == [x] + a[1..];
      }
      SumOfPermutation(a[1..], rest, f);
      SumOfRemoveAt(b, k, f);
    }
  }

  /** Taking out entry k of b takes one copy of b[k] out of its multiset. */
  lemma RemoveAt<T>(b: seq<T>, k: nat)
    requires k < |b|
    ensures multiset(b[..k] + b[k + 1..]) == multiset(b) - multiset{b[k]}
  {
    assert b == b[..k] + [b[k]] + b[k + 1..];
  }

  /** The sum over b is entry k's term plus the sum over the other entries. */
  lemma SumOfRemoveAt<T>(b: seq<T>, k: nat, f: T -> real)
    requires k < |b|
    ensures SumOf(b, f) == f(b[k]) + SumOf(b[..k] + b[k + 1..], f)
  {
    var x := b[k];
    assert b == (b[..k] + [x]) + b[k + 1..];
    SumOfConcat(b[..k] + [x], b[k + 1..], f);
    SumOfConcat(b[..k], [x], f);
    SumOfConcat(b[..k], b[k + 1..], f);
    assert SumOf([x], f) == f(x) by {
      assert [x][1..] == [];
    }
  }

  /** Summing f over the responses is summing f after conv over the kernels. */
  lemma {:induction false} SumOfResponses(conv: Convolution, image: Matrix, kernels: seq<Matrix>, f: Matrix -> real)
    requires KeepsShape(conv)
    ensures SumOf(Responses(conv, image, kernels), f) == SumOf(kernels, (k: Matrix) => f(conv(image, k)))
  {
    if kernels != [] {
      var rs := Responses(conv, image, kernels);
      assert rs[1..] == Responses(conv, image, kernels[1..]);
      SumOfResponses(conv, image, kernels[1..], f);
    }
  }

  lemma {:induction false} BankSumIsSumOf(rs: seq<Matrix>, h: Half)
    ensures BankSum(rs, h) == SumOf(rs, (m: Matrix) => PartSum(m, h))
    ensures BankCount(rs, h) as real == SumOf(rs, (m: Matrix) => PartCount(m, h) as real)
  {
    if rs != [] {
      BankSumIsSumOf(rs[1..], h);
    }
  }

  /** Both energies are unchanged when the kernel list is permuted. */
  lemma EnergiesIgnoreKernelOrder(conv: Convolution, image: Matrix, ks1: seq<Matrix>, ks2: seq<Matrix>, h: Half)
    requires KeepsShape(conv)
    requires multiset(ks1) == multiset(ks2)
    ensures BankSum(Responses(conv, image, ks1), h) == BankSum(Responses(conv, image, ks2), h)
    ensures BankCount(Responses(conv, image, ks1), h) == BankCount(Responses(conv, image, ks2), h)
  {
    var fs := (m: Matrix) => PartSum(m, h);
    var fc := (m: Matrix) => PartCount(m, h) as real;
    BankSumIsSumOf(Responses(conv, image, ks1), h);
    BankSumIsSumOf(Responses(conv, image, ks2), h);
    SumOfResponses(conv, image, ks1, fs);
    SumOfResponses(conv, image, ks2, fs);
    SumOfResponses(conv, image, ks1, fc);
    SumOfResponses(conv, image, ks2, fc);
    SumOfPermutation(ks1, ks2, (k: Matrix) => fs(conv(image, k)));
    SumOfPermutation(ks1, ks2, (k: Matrix) => fc(conv(image, k)));
  }

  /** A 240 x 320 matrix has 240 * 160 cells in each half. */
  lemma {:induction false} PartCountOfImageShape(m: Matrix, rows: nat, h: Half)
    requires IsMatrix(m, rows, 320)
    ensures PartCount(m, h) == rows * 160
  {
    if rows > 0 {
      PartCountOfImageShape(m[1..], rows - 1, h);
    }
  }

  /** Each of k responses of a 240 x 320 image contributes 240 * 160 cells to a half. */
  lemma {:induction false} ResponseCountsFrom(rs: seq<Matrix>, h: Half)
    requires forall k :: 0 <= k < |rs| ==> IsMatrix(rs[k], 240, 320)
    ensures BankCount(rs, h) == |rs| * 240 * 160
  {
    if rs != [] {
      PartCountOfImageShape(rs[0], 240, h);
      ResponseCountsFrom(rs[1..], h);
    }
  }

  /** The mean of one half of one response. */
  function KernelHalfMean(m: Matrix, h: Half): real {
    PartSum(m, h) / (240 * 160) as real
  }

  lemma {:induction false} SumOfDivided(rs: seq<Matrix>, h: Half, c: real)
    requires c != 0.0
    ensures SumOf(rs, (m: Matrix) => PartSum(m, h) / c) == BankSum(rs, h) / c
  {
    if rs != [] {
      SumOfDivided(rs[1..], h, c);
      assert SumOf(rs, (m: Matrix) => PartSum(m, h) / c)
          == PartSum(rs[0], h) / c + SumOf(rs[1..], (m: Matrix) => PartSum(m, h) / c);
      DivAdd(PartSum(rs[0], h), BankSum(rs[1..], h), c);
    }
  }

  lemma DivAdd(a: real, b: real, c: real)
    requires c != 0.0
    ensures a / c + b / c == (a + b) / c
  {
  }

  /** For four responses of the image's shape, each energy is the average of the per-kernel half means. */
  lemma BankMeanIsAverageOfKernelMeans(rs: seq<Matrix>, h: Half)
    requires |rs| == 4
    requires forall k :: 0 <= k < |rs| ==> IsMatrix(rs[k], 240, 320)
    ensures BankCount(rs, h) > 0
    ensures BankMean(rs, h) == SumOf(rs, (m: Matrix) => KernelHalfMean(m, h)) / 4.0
  {
    var c := (240 * 160) as real;
    ResponseCountsFrom(rs, h);
    SumOfDivided(rs, h, c);
    SumOfSameFunction(rs, (m: Matrix) => KernelHalfMean(m, h), (m: Matrix) => PartSum(m, h) / c);
    assert BankCount(rs, h) as real == 4.0 * c;
  }

  /** So the two energies of `process_image` are averages of per-kernel means. */
  lemma EnergyIsAverageOfKernelMeans(t: Transcendentals, conv: Convolution, image: Matrix)
    requires KeepsShape(conv)
    requires IsMatrix(image, 240, 320)
    ensures ProcessImage(t, conv, image).left
         == SumOf(Responses(conv, image, FilterBank(t)), (m: Matrix) => KernelHalfMean(m, Left)) / 4.0
    ensures ProcessImage(t, conv, image).right
         == SumOf(Responses(conv, image, FilterBank(t)), (m: Matrix) => KernelHalfMean(m, Right)) / 4.0
  {
    var rs := Responses(conv, image, FilterBank(t));
    ShapeOfResponses(conv, image, rs);
    BankMeanIsAverageOfKernelMeans(rs, Left);
    BankMeanIsAverageOfKernelMeans(rs, Right);
  }

  lemma ShapeOfResponses(conv: Convolution, image: Matrix, rs: seq<Matrix>)
    requires IsMatrix(image, 240, 320)
    requires forall k :: 0 <= k < |rs| ==> SameShape(rs[k], image)
    ensures forall k :: 0 <= k < |rs| ==> IsMatrix(rs[k], 240, 320)
  {
  }

  lemma {:induction false} SumOfSameFunction<T>(s: seq<T>, f: T -> real, g: T -> real)
    requires forall x :: f(x) == g(x)
    ensures SumOf(s, f) == SumOf(s, g)
  {
    if s != [] {
      SumOfSameFunction(s[1..], f, g);
    }
  }

  /** Every cell of the row equals c. */
  ghost predicate ConstantRow(row: seq<real>, c: real) {
    forall j :: 0 <= j < |row| ==> row[j] == c
  }

  /** Every cell of m equals c. */
  ghost predicate ConstantMatrix(m: Matrix, c: real) {
    forall i :: 0 <= i < |m| ==> ConstantRow(m[i], c)
  }

  /** Every cell of every matrix in rs equals c. */
  ghost predicate AllCells(rs: seq<Matrix>, c: real) {
    forall k :: 0 <= k < |rs| ==> ConstantMatrix(rs[k], c)
  }

  /** c added to itself n times. */
  function Times(c: real, n: nat): real {
    if n == 0 then 0.0 else c + Times(c, n - 1)
  }

  lemma {:induction false} TimesAdd(c: real, a: nat, b: nat)
    ensures Times(c, a + b) == Times(c, a) + Times(c, b)
  {
    if a > 0 {
      TimesAdd(c, a - 1, b);
    }
  }

  lemma {:induction false} TimesIsProduct(c: real, n: nat)
    ensures Times(c, n) == c * n as real
  {
    if n > 0 {
      TimesIsProduct(c, n - 1);
      assert c * (n - 1) as real + c == c * n as real;
    }
  }

  lemma MeanOfTimes(total: real, c: real, n: nat)
    requires n > 0 && total == Times(c, n)
    ensures total / n as real == c
  {
    TimesIsProduct(c, n);
    var q := total / n as real;
    assert q * n as real == c * n as real;
    assert (q - c) * n as real == 0.0;
  }

  lemma {:induction false} SumOfConstant(s: seq<real>, c: real)
    requires ConstantRow(s, c)
    ensures Sum(s) == Times(c, |s|)
  {
    if s != [] {
      assert ConstantRow(s[1..], c) by {
        forall j | 0 <= j < |s[1..]| ensures s[1..][j] == c {
          assert s[1..][j] == s[j + 1];
        }
      }
      SumOfConstant(s[1..], c);
    }
  }

  lemma PartConstant(row: seq<real>, h: Half, c: real)
    requires ConstantRow(row, c)
    ensures ConstantRow(Part(row, h), c)
  {
    var mid := if |row| < 160 then |row| else 160;
    if h == Left {
      assert Part(row, h) == row[..mid];
    } else {
      assert Part(row, h) == row[mid..];
      assert forall j :: 0 <= j < |row| - mid ==> row[mid..][j] == row[mid + j];
    }
  }

  lemma {:induction false} PartSumOfConstant(m: Matrix, h: Half, c: real)
    requires ConstantMatrix(m, c)
    ensures PartSum(m, h) == Times(c, PartCount(m, h))
  {
    if m != [] {
      assert ConstantMatrix(m[1..], c) by {
        forall i | 0 <= i < |m[1..]| ensures ConstantRow(m[1..][i], c) {
          assert m[1..][i] == m[i + 1];
        }
      }
      PartConstant(m[0], h, c);
      SumOfConstant(Part(m[0], h), c);
      PartSumOfConstant(m[1..], h, c);
      TimesAdd(c, |Part(m[0], h)|, PartCount(m[1..], h));
    }
  }

  lemma {:induction false} BankSumOfConstant(rs: seq<Matrix>, h: Half, c: real)
    requires AllCells(rs, c)
    ensures BankSum(rs, h) == Times(c, BankCount(rs, h))
  {
    if rs != [] {
      PartSumOfConstant(rs[0], h, c);
      assert AllCells(rs[1..], c) by {
        forall k | 0 <= k < |rs[1..]| ensures ConstantMatrix(rs[1..][k], c) {
          assert rs[1..][k] == rs[k + 1];
        }
      }
      BankSumOfConstant(rs[1..], h, c);
      TimesAdd(c, PartCount(rs[0], h), BankCount(rs[1..], h));
    }
  }

  /** When every response cell equals c, both energies equal c. */
  lemma ConstantResponsesGiveConstantEnergy(rs: seq<Matrix>, h: Half, c: real)
    requires AllCells(rs, c)
    requires BankCount(rs, h) > 0
    ensures BankMean(rs, h) == c
  {
    BankSumOfConstant(rs, h, c);
    MeanOfTimes(BankSum(rs, h), c, BankCount(rs, h));
  }
}

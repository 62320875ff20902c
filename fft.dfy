/**
 * The index machinery of web/fft/fft.js, a radix-4 FFT over interleaved complex
 * arrays: size validation, the power and width of the table, the `_bitrev` table,
 * the conversions between real and interleaved-complex arrays, the conjugate
 * mirror of `completeSpectrum`, and the `_out` / `_data` / `_inv` protocol of the
 * three transforms with the first butterfly pass they schedule. The twiddle
 * table and the butterflies' arithmetic are not modelled.
 */
module Fft {
  import opened JsNumbers
  import opened FftIndex
  import opened Arith
  import opened Wrappers

  /** The constructor's test: `size | 0` is above 1 and has no bit in common with its predecessor. */
  predicate SizeAccepted(size: int) {
    var s := BitOr(size, 0);
    s > 1 && BitAnd(s, s - 1) == 0
  }

  /** The message the constructor throws. */
  const SizeError: string := "FFT size must be a power of two and bigger than 1"

  /** The message `transform`, `realTransform` and `inverseTransform` throw. */
  const BufferError: string := "Input and output buffers must be different"

  /** What `new Array(n)` throws for a negative length. */
  const LengthError: string := "Invalid array length"

  /** A power of two that fits in 31 bits is at most 2^30. */
  lemma PowerOfTwoBelow31(n: int)
    requires IsPowerOfTwo(n) && n < TWO31
    ensures n <= 0x4000_0000 && Log2(n) <= 30
  {
    Pow2Values();
    var k := Log2(n);
    if k >= 31 {
      Pow2Monotone(31, k);
    }
    Pow2Monotone(k, 30);
  }

  /**
   * The sizes the constructor accepts are exactly those whose 32-bit value is a power
   * of two from 2 to 2^30.
   */
  lemma SizeAcceptedIff(size: int)
    ensures SizeAccepted(size) <==> var s := ToInt32(size); 2 <= s <= 0x4000_0000 && IsPowerOfTwo(s)
  {
    var s := ToInt32(size);
    BitOrZero(size);
    if s > 1 {
      AndBound(s, s - 1);
      assert BitAnd(s, s - 1) == And(s, s - 1);
      PowerOfTwoIffNoCommonBit(s);
      if IsPowerOfTwo(s) {
        PowerOfTwoBelow31(s);
      }
    }
  }

  /** The sizes 2, 4, ..., 2^30 are accepted, and 0, 1, 3, 6 and negative sizes are not. */
  lemma SizeExamples()
    ensures SizeAccepted(2) && SizeAccepted(1024)
    ensures !SizeAccepted(0) && !SizeAccepted(1) && !SizeAccepted(3) && !SizeAccepted(6) && !SizeAccepted(-4)
  {
    SizeAcceptedIff(2);
    SizeAcceptedIff(1024);
    SizeAcceptedIff(3);
    SizeAcceptedIff(6);
    SizeAcceptedIff(-4);
    assert IsPowerOfTwo(1024) by {
      assert IsPowerOfTwo(2) && IsPowerOfTwo(4) && IsPowerOfTwo(8) && IsPowerOfTwo(16) && IsPowerOfTwo(32);
      assert IsPowerOfTwo(64) && IsPowerOfTwo(128) && IsPowerOfTwo(256) && IsPowerOfTwo(512);
    }
    assert !IsPowerOfTwo(3) && !IsPowerOfTwo(6);
  }

  /** `size << 1` on an integer whose 32-bit value is non-negative doubles that value in 32 bits. */
  lemma DoubledSize(size: int)
    requires 0 <= ToInt32(size)
    ensures ShiftLeft(size, 1) == ToInt32(2 * ToInt32(size))
  {
    assert ToUint32(size) == ToInt32(size);
    assert Pow2(1) == 2;
  }

  /** The width is odd and at most 29 for the powers 1 to 30. */
  lemma WidthIsOdd(power: nat)
    requires 1 <= power <= 30
    ensures Width(power) % 2 == 1 && 1 <= Width(power) <= 29
  {
  }

  /** 2^(2m + 1) is 2 * 4^m. */
  lemma TableLength(m: nat)
    ensures Pow2(2 * m + 1) == 2 * Pow4(m)
  {
    Pow4IsPow2(m);
  }

  /** `1 << w` for a table width w is 2^w. */
  lemma OneShiftedLeft(w: int)
    requires 1 <= w <= 29
    ensures ShiftLeft(1, w) == Pow2(w) <= 0x2000_0000
  {
    Pow2Values();
    Pow2Monotone(w, 29);
    ShiftLeftSmall(1, w);
  }

  /** `_csize` is 2 * size except for size 2^30, where `size << 1` wraps to -2^31. */
  lemma ComplexSize(size: int)
    requires 2 <= size <= 0x4000_0000
    ensures size < 0x4000_0000 ==> ToInt32(2 * size) == 2 * size
    ensures size == 0x4000_0000 ==> ToInt32(2 * size) == -TWO31
  {
  }

  /** The number of first-pass butterflies times their length `len` covers `_csize` exactly. */
  lemma FirstPassCovers(power: nat)
    requires 1 <= power <= 29
    ensures var m := Width(power) / 2;
      2 * Pow2(power) == (if power % 2 == 1 then 4 else 8) * Pow4(m)
  {
    var m := Width(power) / 2;
    Pow4IsPow2(m);
    if power % 2 == 1 {
      assert power == 2 * m + 1;
      assert Pow2(2 * m + 2) == 4 * Pow2(2 * m);
    } else {
      assert power == 2 * m + 2;
      assert Pow2(2 * m + 3) == 8 * Pow2(2 * m);
    }
  }

  /** `i >>> 1` halves a non-negative index. */
  lemma HalfIndex(i: int)
    requires 0 <= i < TWO32
    ensures UnsignedShiftRight(i, 1) == i / 2
  {
    UnsignedShiftRightSmall(i, 1);
    assert Pow2(1) == 2;
  }

  /** The exponent of 2^k is k. */
  lemma {:induction false} Log2OfPow2(k: nat)
    ensures IsPowerOfTwo(Pow2(k)) && Log2(Pow2(k)) == k
  {
    if k > 0 {
      Log2OfPow2(k - 1);
      assert Pow2(k) / 2 == Pow2(k - 1);
    }
  }

  /** The `len` of the first pass: 4 (radix-2 butterflies) for an odd power, 8 (radix 4) for an even one. */
  ghost function PassLen(size: int): (len: int)
    requires IsPowerOfTwo(size)
    ensures len == 4 || len == 8
  {
    if Log2(size) % 2 == 1 then 4 else 8
  }

  /**
   * The setup of both first passes: `step = 1 << width` is 2^width, `len = (size / step) << 1`
   * is PassLen, and `_csize` is len times 4^m, where width = 2m + 1.
   */
  lemma PassShape(size: int, csize: int, width: int)
    requires 2 <= size <= 0x4000_0000 && IsPowerOfTwo(size)
    requires csize == ToInt32(2 * size) && width == Width(Log2(size))
    ensures width == 2 * (width / 2) + 1 && width / 2 <= 14
    ensures ShiftLeft(1, width) == Pow2(width) == 2 * Pow4(width / 2)
    ensures csize > 0 ==> ShiftLeft(csize / Pow2(width), 1) == PassLen(size)
    ensures csize > 0 ==> csize == PassLen(size) * Pow4(width / 2)
  {
    var m := width / 2;
    var power := Log2(size);
    PowerOfTwoBelow31(size);
    WidthIsOdd(power);
    OneShiftedLeft(width);
    assert width == 2 * m + 1;
    TableLength(m);
    if csize > 0 {
      ComplexSize(size);
      Pow2Values();
      Pow2Below(power, 30);
      FirstPassCovers(power);
      FirstPassLen(csize, Pow2(width), Pow4(m), PassLen(size));
    }
  }

  /**
   * With `_csize` = len * 4^m and step = 2 * 4^m, `(_csize / step) << 1` gives back
   * len, for both lengths 4 and 8.
   */
  lemma FirstPassLen(csize: int, step: int, p: int, len: int)
    requires p >= 1 && step == 2 * p && csize == len * p && (len == 4 || len == 8)
    ensures ShiftLeft(csize / step, 1) == len
  {
    var half := len / 2;
    assert csize == half * step;
    DivUnique(csize, step, half, 0);
    assert Pow2(1) == 2;
    ShiftLeftSmall(half, 1);
  }

  /** The entry the first pass reads at t < 4^m, and its `>>> 1` in the real pass. */
  lemma PassEntry(t: nat, m: nat, off: int, step: int)
    requires m <= 14 && t < Pow4(m)
    requires off == BitrevValue(t, 2 * m + 1) && step == 2 * Pow4(m)
    ensures off == 2 * Rev4(t, m)
    ensures UnsignedShiftRight(off, 1) == Rev4(t, m) && UnsignedShiftRight(step, 1) == Pow4(m)
  {
    assert (2 * m + 1) / 2 == m;
    BitrevLowHalf(t, m);
    Rev4Bound(t, m);
    Pow4Small(m);
    HalfIndex(off);
    HalfIndex(step);
  }

  /** One call the first pass makes: `_singleTransform2/4(outOff, off, step)` (radix 2 or 4). */
  datatype Butterfly = Butterfly(radix: nat, outOff: int, off: int, step: int)

  /** The entries 2t and 2t + 1 of an interleaved array hold the real and imaginary parts of value t. */
  function Interleave(input: seq<real>, n: nat): (c: seq<Option<real>>)
    ensures |c| == 2 * n
    ensures forall k :: 0 <= k < n ==> c[2 * k] == Read(input, k) && c[2 * k + 1] == Some(0.0)
  {
    seq(2 * n, i requires 0 <= i < 2 * n => if i % 2 == 0 then Read(input, i / 2) else Some(0.0))
  }

  /** `input[k]` in JavaScript: the value, or undefined (None) past the end. */
  function Read(input: seq<real>, k: nat): (v: Option<real>)
    ensures v.Some? <==> k < |input|
    ensures k < |input| ==> v.value == input[k]
  {
    if k < |input| then Some(input[k]) else None
  }

  /** The entries at even indices: what `fromComplexArray` keeps. */
  function Evens<T>(c: seq<T>): (r: seq<T>)
    ensures |r| == (|c| + 1) / 2
    ensures forall k :: 0 <= k < |r| ==> r[k] == c[2 * k]
  {
    seq((|c| + 1) / 2, k requires 0 <= k < (|c| + 1) / 2 => c[2 * k])
  }

  /**
   * `fromComplexArray(toComplexArray(x))` gives back the first n samples of x: each one
   * that x holds, and undefined past its end.
   */
  lemma RoundTrip(input: seq<real>, n: nat)
    ensures |Evens(Interleave(input, n))| == n
    ensures forall k :: 0 <= k < n ==> Evens(Interleave(input, n))[k] == Read(input, k)
  {
  }

  /** With at least n samples the round trip is exactly the first n samples. */
  lemma RoundTripOfFullInput(input: seq<real>, n: nat)
    requires n <= |input|
    ensures Unwrap(Evens(Interleave(input, n))) == input[..n]
  {
    var r := Evens(Interleave(input, n));
    RoundTrip(input, n);
    assert forall k :: 0 <= k < n ==> r[k] == Some(input[k]);
  }

  /** The values of a sequence of defined numbers. */
  function Unwrap(s: seq<Option<real>>): (r: seq<real>)
    requires forall k :: 0 <= k < |s| ==> s[k].Some?
    ensures |r| == |s| && forall k :: 0 <= k < |s| ==> r[k] == s[k].value
  {
    seq(|s|, k requires 0 <= k < |s| => s[k].value)
  }

  /**
   * The array `completeSpectrum` leaves for n = size: entries 2b and 2b + 1 of the upper
   * bins n/2 < b < n become the conjugate of bin n - b, everything else is as it was.
   */
  function Mirror(s: seq<real>, n: nat): (r: seq<real>)
    requires 2 * n <= |s|
    ensures |r| == |s| && forall k :: 0 <= k < |s| ==> r[k] == MirrorAt(s, n, k)
  {
    seq(|s|, k requires 0 <= k < |s| => MirrorAt(s, n, k))
  }

  /** Entry k of Mirror(s, n). */
  function MirrorAt(s: seq<real>, n: nat, k: nat): real
    requires 2 * n <= |s| && k < |s|
  {
    if n + 2 <= k < 2 * n then
      (if k % 2 == 0 then s[2 * n - k] else -s[2 * n + 2 - k])
    else s[k]
  }

  /** Entry k once the mirror loop has reached i: the entries from 2n - i + 2 on are mirrored. */
  ghost function MirroredAt(s: seq<real>, n: nat, i: nat, k: nat): real
    requires 2 * n <= |s| && k < |s|
  {
    if 2 * n - i + 2 <= k < 2 * n then MirrorAt(s, n, k) else s[k]
  }

  /** One iteration of the mirror loop writes bin i's conjugate to entries 2n - i and 2n - i + 1. */
  lemma MirrorStep(s: seq<real>, n: nat, i: nat)
    requires 2 * n <= |s| && 2 <= i < n && i % 2 == 0 && n % 2 == 0
    ensures MirroredAt(s, n, i, i) == s[i] && MirroredAt(s, n, i, i + 1) == s[i + 1]
    ensures forall k :: 0 <= k < |s| ==>
      MirroredAt(s, n, i + 2, k) == (if k == 2 * n - i then s[i] else if k == 2 * n - i + 1 then -s[i + 1] else MirroredAt(s, n, i, k))
  {
    var j := n - i / 2;
    assert 2 * n - i == 2 * j && (2 * j) % 2 == 0 && (2 * j + 1) % 2 == 1;
    forall k | 0 <= k < |s|
      ensures MirroredAt(s, n, i + 2, k) ==
        (if k == 2 * n - i then s[i] else if k == 2 * n - i + 1 then -s[i + 1] else MirroredAt(s, n, i, k))
    {
      if k == 2 * j {
        assert MirrorAt(s, n, k) == s[i];
      } else if k == 2 * j + 1 {
        assert MirrorAt(s, n, k) == -s[i + 1];
      }
    }
  }

  /** When the loop stops at i = n, the upper bins n/2 < b < n are all mirrored. */
  lemma MirrorDone(s: seq<real>, n: nat)
    requires 2 * n <= |s|
    ensures forall k :: 0 <= k < |s| ==> MirroredAt(s, n, n, k) == Mirror(s, n)[k]
  {
  }

  /**
   * After `completeSpectrum` the spectrum is Hermitian: for every upper bin b, with
   * n/2 < b < n, the real part equals bin n - b's and the imaginary part is its negation.
   */
  lemma MirrorIsConjugate(s: seq<real>, n: nat, b: nat)
    requires 2 * n <= |s| && n % 2 == 0 && n / 2 < b < n
    ensures Mirror(s, n)[2 * b] == Mirror(s, n)[2 * (n - b)]
    ensures Mirror(s, n)[2 * b + 1] == -Mirror(s, n)[2 * (n - b) + 1]
  {
  }

  /** The entries below n + 2 (bins 0 to n/2) and those from 2n on are left as they were. */
  lemma MirrorKeepsLowerHalf(s: seq<real>, n: nat)
    requires 2 <= n && 2 * n <= |s|
    ensures Mirror(s, n)[..n + 2] == s[..n + 2]
    ensures Mirror(s, n)[2 * n..] == s[2 * n..]
  {
  }

  /** Mirroring a mirrored spectrum changes nothing. */
  lemma MirrorIsIdempotent(s: seq<real>, n: nat)
    requires 2 * n <= |s|
    ensures Mirror(Mirror(s, n), n) == Mirror(s, n)
  {
    var once := Mirror(s, n);
    forall k | 0 <= k < |s|
      ensures Mirror(once, n)[k] == once[k]
    {
      if n + 2 <= k < 2 * n {
        if k % 2 == 0 {
          assert once[2 * n - k] == s[2 * n - k];
        } else {
          assert once[2 * n + 2 - k] == s[2 * n + 2 - k];
        }
      }
    }
  }

  /** The first pass visits each low-half table entry once: distinct t give distinct offsets. */
  lemma FirstPassOffsetsDistinct(t1: nat, t2: nat, m: nat)
    requires t1 < Pow4(m) && t2 < Pow4(m) && t1 != t2
    ensures Rev4(t1, m) != Rev4(t2, m)
  {
    Rev4Involution(t1, m);
    Rev4Involution(t2, m);
  }

  /** An FFT object for a fixed size. */
  class FFT {
    /** `size | 0`. */
    const size: int
    /** `size << 1`, the length of a complex array. */
    const csize: int
    /** The odd table width: `power` or `power - 1`. */
    const width: int
    /** The base-4 digit reversal table. */
    const bitrev: array<int>
    /** The buffers of the transform in progress, null between transforms. */
    var out: array?<real>
    var data: array?<real>
    /** 1 during an inverse transform, else 0. */
    var inv: int

    /** The constructor's postcondition, kept by every method. */
    ghost predicate Valid()
      reads bitrev
    {
      && 2 <= size <= 0x4000_0000 && IsPowerOfTwo(size)
      && csize == ToInt32(2 * size)
      && width == Width(Log2(size))
      && width % 2 == 1 && 1 <= width <= 29
      && bitrev.Length == Pow2(width)
      && forall t :: 0 <= t < bitrev.Length ==> bitrev[t] == BitrevValue(t, width)
    }

    /**
     * `new FFT(size)` for an accepted size: the power loop finds log2(size), the width is
     * that power made odd, and `_bitrev[j]` is built by OR-ing in j's base-4 digits in
     * reverse order, the last one shifted by -1 (that is by 31).
     */
    constructor (sizeArg: int)
      requires SizeAccepted(sizeArg)
      ensures Valid()
      ensures size == ToInt32(sizeArg) && csize == ShiftLeft(sizeArg, 1)
      ensures out == null && data == null && inv == 0
      ensures fresh(bitrev)
    {
      var s := BitOr(sizeArg, 0);
      SizeAcceptedIff(sizeArg);
      BitOrZero(sizeArg);
      var power := Power(s);
      Log2OfPow2(power);
      PowerOfTwoBelow31(s);
      var w := if power % 2 == 0 then power - 1 else power;
      WidthIsOdd(power);
      var br := BitrevTable(w);
      size := s;
      csize := ShiftLeft(sizeArg, 1);
      width := w;
      bitrev := br;
      out := null;
      data := null;
      inv := 0;
      DoubledSize(sizeArg);
    }

    /** The power loop `for (t = 1; size > t; t <<= 1) power++`: the exponent of the size. */
    static method Power(s: int) returns (power: nat)
      requires 2 <= s <= 0x4000_0000 && IsPowerOfTwo(s)
      ensures Pow2(power) == s
    {
      ghost var lg := Log2(s);
      Pow2Values();
      PowerOfTwoBelow31(s);
      power := 0;
      var t := 1;
      while s > t
        invariant power <= lg && t == Pow2(power) && t <= s
        decreases lg - power
      {
        Pow2Below(power, lg);
        Pow2Monotone(power + 1, lg);
        ShiftLeftSmall(t, 1);
        t := ShiftLeft(t, 1);
        power := power + 1;
      }
    }

    /** `new Array(1 << width)` filled entry by entry. */
    static method BitrevTable(w: int) returns (br: array<int>)
      requires 1 <= w <= 29 && w % 2 == 1
      ensures fresh(br) && br.Length == Pow2(w)
      ensures forall t :: 0 <= t < br.Length ==> br[t] == BitrevValue(t, w)
    {
      OneShiftedLeft(w);
      br := new int[ShiftLeft(1, w)];
      var j := 0;
      while j < br.Length
        invariant 0 <= j <= br.Length
        invariant forall i :: 0 <= i < j ==> br[i] == BitrevValue(i, w)
      {
        br[j] := BitrevEntry(j, w);
        j := j + 1;
      }
    }

    /**
     * The inner loop for one entry: starting from 0, OR in `((j >>> shift) & 3) << revShift`
     * for shift = 0, 2, ..., width - 1 with revShift = width - shift - 2.
     */
    static method BitrevEntry(j: int, w: int) returns (entry: int)
      requires 1 <= w <= 29 && w % 2 == 1 && 0 <= j < Pow2(w)
      ensures entry == BitrevValue(j, w)
    {
      var m := w / 2;
      assert w == 2 * m + 1 && m <= 14;
      TableLength(m);
      assert j < 2 * Pow4(m);
      entry := 0;
      var sh := 0;
      ghost var k := 0;
      assert PartialEntry(j, 0, m) == 0 by {
        assert Rev4(j, 0) == 0;
      }
      while sh < w
        invariant 0 <= k <= m + 1 && sh == 2 * k
        invariant k <= m ==> entry == PartialEntry(j, k, m)
        invariant k == m + 1 ==> entry == BitrevValue(j, w)
      {
        var revShift := w - sh - 2;
        if k < m {
          BitrevStep(j, k, m, entry, sh, revShift);
        } else {
          BitrevLastStep(j, m, entry, sh, revShift);
        }
        entry := BitOr(entry, BitrevTerm(j, sh, revShift));
        sh := sh + 2;
        k := k + 1;
      }
    }

    /** `new FFT(size)` with its error path: it throws exactly for the sizes the test rejects. */
    static method Create(sizeArg: int) returns (r: Result<FFT>)
      ensures r.Err? <==> !SizeAccepted(sizeArg)
      ensures r.Err? ==> r.message == SizeError
      ensures r.Ok? ==> fresh(r.value) && r.value.Valid() && r.value.size == ToInt32(sizeArg)
      ensures r.Ok? ==> r.value.out == null && r.value.data == null && r.value.inv == 0
    {
      if !SizeAccepted(sizeArg) {
        return Err(SizeError);
      }
      var f := new FFT(sizeArg);
      return Ok(f);
    }

    /** `createComplexArray`: `_csize` zeros, or the RangeError of `new Array` when `_csize` wrapped negative. */
    method CreateComplexArray() returns (r: Result<array<real>>)
      requires Valid()
      ensures r.Err? <==> csize < 0
      ensures r.Err? ==> r.message == LengthError
      ensures r.Ok? ==> fresh(r.value) && r.value.Length == 2 * size
      ensures r.Ok? ==> forall i :: 0 <= i < r.value.Length ==> r.value[i] == 0.0
    {
      if csize < 0 {
        return Err(LengthError);
      }
      ComplexSize(size);
      assert csize == 2 * size;
      var res := new real[csize];
      var i := 0;
      while i < res.Length
        invariant 0 <= i <= res.Length
        invariant forall k :: 0 <= k < i ==> res[k] == 0.0
      {
        res[i] := 0.0;
        i := i + 1;
      }
      return Ok(res);
    }

    /**
     * `toComplexArray(input)` without a storage argument: a fresh complex array with
     * `input[i]` at 2i and 0 at 2i + 1 (undefined where the input is too short).
     */
    method ToComplexArray(input: array<real>) returns (r: Result<array<Option<real>>>)
      requires Valid()
      ensures r.Err? <==> csize < 0
      ensures r.Err? ==> r.message == LengthError
      ensures r.Ok? ==> fresh(r.value) && r.value[..] == Interleave(input[..], size)
    {
      if csize < 0 {
        return Err(LengthError);
      }
      ComplexSize(size);
      assert csize == 2 * size;
      var res := new Option<real>[csize];
      var i := 0;
      while i < res.Length
        invariant 0 <= i <= res.Length && i % 2 == 0
        invariant forall k :: 0 <= k < i ==> res[k] == (if k % 2 == 0 then Read(input[..], k / 2) else Some(0.0))
      {
        HalfIndex(i);
        var k := UnsignedShiftRight(i, 1);
        res[i] := if k < input.Length then Some(input[k]) else None;
        res[i + 1] := Some(0.0);
        i := i + 2;
      }
      assert res[..] == Interleave(input[..], size);
      return Ok(res);
    }

    /** `fromComplexArray(complex)` without a storage argument: the entries at even indices. */
    method FromComplexArray<T(0)>(complex: array<T>) returns (res: array<T>)
      ensures fresh(res) && res[..] == Evens(complex[..])
    {
      res := new T[(complex.Length + 1) / 2];
      var i := 0;
      while i < complex.Length
        invariant 0 <= i <= complex.Length + 1 && i % 2 == 0
        invariant forall k :: 0 <= k < i / 2 ==> res[k] == complex[2 * k]
      {
        res[i / 2] := complex[i];
        i := i + 2;
      }
    }

    /** `completeSpectrum(spectrum)`: the upper half becomes the conjugate mirror of the lower half. */
    method CompleteSpectrum(spectrum: array<real>)
      requires Valid() && 0 < csize <= spectrum.Length
      modifies spectrum
      ensures spectrum[..] == Mirror(old(spectrum[..]), size)
    {
      ComplexSize(size);
      var n := csize;
      var half := UnsignedShiftRight(n, 1);
      UnsignedShiftRightSmall(n, 1);
      assert Pow2(1) == 2 && half == size;
      MirrorUpper(spectrum, n, half);
    }

    /** The loop of `completeSpectrum`: for i = 2, 4, ... below half, entries n - i and n - i + 1 take bin i's conjugate. */
    static method MirrorUpper(spectrum: array<real>, n: int, half: nat)
      requires n == 2 * half <= spectrum.Length && 2 <= half && half % 2 == 0
      modifies spectrum
      ensures spectrum[..] == Mirror(old(spectrum[..]), half)
    {
      ghost var s := spectrum[..];
      var i := 2;
      while i < half
        invariant 2 <= i <= half && i % 2 == 0
        invariant spectrum.Length == |s|
        invariant forall k :: 0 <= k < spectrum.Length ==> spectrum[k] == MirroredAt(s, half, i, k)
      {
        MirrorStep(s, half, i);
        spectrum[n - i] := spectrum[i];
        spectrum[n - i + 1] := -spectrum[i + 1];
        i := i + 2;
      }
      MirrorDone(s, half);
      assert spectrum[..] == Mirror(s, half);
    }

    /**
     * The butterflies the first pass schedules: none when `_csize` wrapped negative, else
     * 4^(width/2) of them, the t-th at output t * len, reading twice t's base-4 digit reversal
     * with step 2^width (the real pass: the reversal itself with step 4^(width/2)).
     */
    ghost predicate PlannedPass(plan: seq<Butterfly>, realPass: bool)
      requires Valid()
      reads bitrev
    {
      && (csize < 0 ==> plan == [])
      && (csize > 0 ==> |plan| == Pow4(width / 2))
      && (csize > 0 ==> forall t :: 0 <= t < |plan| ==>
            plan[t] == Butterfly(if PassLen(size) == 4 then 2 else 4,
                                 t * PassLen(size),
                                 if realPass then Rev4(t, width / 2) else 2 * Rev4(t, width / 2),
                                 if realPass then Pow4(width / 2) else Pow2(width)))
    }

    /**
     * The first butterfly pass of `_transform4` (`realPass` false) or `_realTransform4`
     * (`realPass` true): for each t below _csize / len it reads `_bitrev[t]`, which is
     * twice t's base-4 digit reversal, so only the table's lower half is ever read.
     */
    method FirstPass(realPass: bool) returns (plan: seq<Butterfly>)
      requires Valid()
      ensures PlannedPass(plan, realPass)
    {
      var step, len := PassSetup(size, csize, width);
      if csize < 0 {
        return [];
      }
      plan := EmitButterflies(bitrev, width, step, len, csize, realPass);
    }

    /**
     * The first pass's loop `for (outOff = 0, t = 0; outOff < _csize; outOff += len, t++)`:
     * butterfly t starts at output t * len and reads table entry `_bitrev[t]` (halved by `>>> 1`
     * in the real pass) with stride step (or `step >>> 1`).
     */
    static method EmitButterflies(bitrev: array<int>, width: nat, step: int, len: int, csize: int, realPass: bool)
      returns (plan: seq<Butterfly>)
      requires width == 2 * (width / 2) + 1 && width / 2 <= 14
      requires bitrev.Length == Pow2(width) && step == Pow2(width) == 2 * Pow4(width / 2)
      requires forall t :: 0 <= t < bitrev.Length ==> bitrev[t] == BitrevValue(t, width)
      requires len > 0 && csize == len * Pow4(width / 2)
      ensures |plan| == Pow4(width / 2)
      ensures forall t :: 0 <= t < |plan| ==>
        plan[t] == Butterfly(if len == 4 then 2 else 4, t * len,
                             if realPass then Rev4(t, width / 2) else 2 * Rev4(t, width / 2),
                             if realPass then Pow4(width / 2) else step)
    {
      var m := width / 2;
      var outOff := 0;
      var t := 0;
      plan := [];
      while outOff < csize
        invariant 0 <= t <= Pow4(m) && outOff == t * len && |plan| == t
        invariant forall u :: 0 <= u < t ==>
          plan[u] == Butterfly(if len == 4 then 2 else 4, u * len,
                               if realPass then Rev4(u, m) else 2 * Rev4(u, m),
                               if realPass then Pow4(m) else step)
        decreases Pow4(m) - t
      {
        MulCancel(len, t, Pow4(m));
        NextRow(t, len, Pow4(m));
        var off := bitrev[t];
        PassEntry(t, m, off, step);
        var b;
        if realPass {
          b := Butterfly(if len == 4 then 2 else 4, outOff, UnsignedShiftRight(off, 1), UnsignedShiftRight(step, 1));
        } else {
          b := Butterfly(if len == 4 then 2 else 4, outOff, off, step);
        }
        plan := plan + [b];
        outOff := outOff + len;
        t := t + 1;
      }
      MulCancelLe(len, Pow4(m), t);
    }

    /** `step = 1 << width` and `len = (size / step) << 1` of both first passes. */
    static method PassSetup(size: int, csize: int, width: int) returns (step: int, len: int)
      requires 2 <= size <= 0x4000_0000 && IsPowerOfTwo(size)
      requires csize == ToInt32(2 * size) && width == Width(Log2(size))
      ensures width == 2 * (width / 2) + 1 && width / 2 <= 14
      ensures step == Pow2(width) == 2 * Pow4(width / 2)
      ensures csize > 0 ==> len == PassLen(size) && csize == len * Pow4(width / 2)
    {
      PassShape(size, csize, width);
      step := ShiftLeft(1, width);
      len := ShiftLeft(csize / step, 1);
    }

    /** `for (i = 0; i < out.length; i++) out[i] /= size`. */
    static method DivideBy(a: array<real>, n: int)
      requires n != 0
      modifies a
      ensures forall i :: 0 <= i < a.Length ==> a[i] == old(a[i]) / n as real
    {
      var i := 0;
      while i < a.Length
        invariant 0 <= i <= a.Length
        invariant forall k :: 0 <= k < i ==> a[k] == old(a[k]) / n as real
        invariant forall k :: i <= k < a.Length ==> a[k] == old(a[k])
      {
        a[i] := a[i] / n as real;
        i := i + 1;
      }
    }

    /** What the butterflies leave in `out`: `passOutput` stands for the arithmetic, which is not modelled. */
    static method StorePassOutput(a: array<real>, passOutput: seq<real>)
      requires |passOutput| == a.Length
      modifies a
      ensures a[..] == passOutput
    {
      var i := 0;
      while i < a.Length
        invariant 0 <= i <= a.Length
        invariant forall k :: 0 <= k < i ==> a[k] == passOutput[k]
      {
        a[i] := passOutput[i];
        i := i + 1;
      }
    }

    /**
     * `transform(out, data)`: refused when the buffers are the same; otherwise the fields are
     * set, the first pass is scheduled, its butterflies leave `passOutput` in `out`, and the
     * fields are cleared. `data` is only read.
     */
    method Transform(out': array<real>, data': array<real>, passOutput: seq<real>) returns (r: Result<seq<Butterfly>>)
      requires Valid() && |passOutput| == out'.Length
      modifies this, out'
      ensures Valid()
      ensures data'[..] == old(data'[..])
      ensures out' == data' ==> r == Err(BufferError) && out'[..] == old(out'[..])
      ensures out' == data' ==> out == old(out) && data == old(data) && inv == old(inv)
      ensures out' != data' ==> r.Ok? && PlannedPass(r.value, false) && out'[..] == passOutput
      ensures out' != data' ==> out == null && data == null && inv == 0
    {
      if out' == data' {
        return Err(BufferError);
      }
      out := out';
      data := data';
      inv := 0;
      var plan := FirstPass(false);
      StorePassOutput(out', passOutput);
      out := null;
      data := null;
      return Ok(plan);
    }

    /** `realTransform(out, data)`: the same protocol around the real-input first pass. */
    method RealTransform(out': array<real>, data': array<real>, passOutput: seq<real>) returns (r: Result<seq<Butterfly>>)
      requires Valid() && |passOutput| == out'.Length
      modifies this, out'
      ensures Valid()
      ensures data'[..] == old(data'[..])
      ensures out' == data' ==> r == Err(BufferError) && out'[..] == old(out'[..])
      ensures out' == data' ==> out == old(out) && data == old(data) && inv == old(inv)
      ensures out' != data' ==> r.Ok? && PlannedPass(r.value, true) && out'[..] == passOutput
      ensures out' != data' ==> out == null && data == null && inv == 0
    {
      if out' == data' {
        return Err(BufferError);
      }
      out := out';
      data := data';
      inv := 0;
      var plan := FirstPass(true);
      StorePassOutput(out', passOutput);
      out := null;
      data := null;
      return Ok(plan);
    }

    /**
     * `inverseTransform(out, data)`: the same protocol with `_inv` set to 1, after which every
     * entry the butterflies left in `out` is divided by size.
     */
    method InverseTransform(out': array<real>, data': array<real>, passOutput: seq<real>) returns (r: Result<seq<Butterfly>>)
      requires Valid() && |passOutput| == out'.Length
      modifies this, out'
      ensures Valid()
      ensures data'[..] == old(data'[..])
      ensures out' == data' ==> r == Err(BufferError) && out'[..] == old(out'[..])
      ensures out' == data' ==> out == old(out) && data == old(data) && inv == old(inv)
      ensures out' != data' ==> r.Ok? && PlannedPass(r.value, false)
      ensures out' != data' ==> forall i :: 0 <= i < out'.Length ==> out'[i] == passOutput[i] / size as real
      ensures out' != data' ==> out == null && data == null && inv == 1
    {
      if out' == data' {
        return Err(BufferError);
      }
      out := out';
      data := data';
      inv := 1;
      var plan := FirstPass(false);
      StorePassOutput(out', passOutput);
      DivideBy(out', size);
      out := null;
      data := null;
      return Ok(plan);
    }
  }
}

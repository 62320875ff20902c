/**
 * The index arithmetic behind fft.js's `_bitrev` table: base-4 digits, their
 * reversal, and the JavaScript expression the constructor evaluates for each
 * table entry, one digit at a time.
 */
module FftIndex {
  import opened JsNumbers
  import opened Arith

  /** Digit k of j in base 4. */
  function Digit(j: nat, k: nat): (d: nat)
    ensures d < 4
  {
    if k == 0 then j % 4 else Digit(j / 4, k - 1)
  }

  /** The number whose m base-4 digits are j's lowest m digits in reverse order. */
  function Rev4(j: nat, m: nat): nat {
    if m == 0 then 0 else 4 * Rev4(j, m - 1) + Digit(j, m - 1)
  }

  /** The table width for a size of 2^power: `power - 1` for even power, else `power`. */
  function Width(power: nat): int {
    if power % 2 == 0 then power - 1 else power
  }

  /**
   * What the constructor stores at `_bitrev[j]` for an odd width w = 2m + 1: twice the
   * digit reversal of j's low m digits, with the sign bit set (so the entry is negative)
   * when j has its top bit, that is when j >= 4^m.
   */
  function BitrevValue(j: nat, width: nat): int {
    var m := width / 2;
    2 * Rev4(j, m) - (if j >= Pow4(m) then TWO31 else 0)
  }

  /** The value `((j >>> shift) & 3) << revShift` the constructor ORs in at one step. */
  function BitrevTerm(j: int, shift: int, revShift: int): int {
    ShiftLeft(BitAnd(UnsignedShiftRight(j, shift), 3), revShift)
  }

  // ---------------------------------------------------------------- digit lemmas

  lemma {:induction false} Rev4Bound(j: nat, m: nat)
    ensures Rev4(j, m) < Pow4(m)
  {
    if m > 0 {
      Rev4Bound(j, m - 1);
    }
  }

  lemma {:induction false} DigitOfSum(a: nat, d: nat, i: nat)
    requires d < 4
    ensures i == 0 ==> Digit(4 * a + d, i) == d
    ensures i > 0 ==> Digit(4 * a + d, i) == Digit(a, i - 1)
  {
    assert (4 * a + d) / 4 == a;
  }

  /** Digit i of the reversal is digit m - 1 - i of j: the reversal reverses the digits. */
  lemma {:induction false} Rev4Digits(j: nat, m: nat, i: nat)
    requires i < m
    ensures Digit(Rev4(j, m), i) == Digit(j, m - 1 - i)
  {
    DigitOfSum(Rev4(j, m - 1), Digit(j, m - 1), i);
    if i > 0 {
      Rev4Digits(j, m - 1, i - 1);
    }
  }

  /** Two numbers below 4^m with the same m low digits are equal. */
  lemma {:induction false} DigitsDetermine(a: nat, b: nat, m: nat)
    requires a < Pow4(m) && b < Pow4(m)
    requires forall i :: 0 <= i < m ==> Digit(a, i) == Digit(b, i)
    ensures a == b
  {
    if m > 0 {
      assert a % 4 == b % 4 by {
        assert Digit(a, 0) == Digit(b, 0);
      }
      forall i | 0 <= i < m - 1
        ensures Digit(a / 4, i) == Digit(b / 4, i)
      {
        assert Digit(a, i + 1) == Digit(b, i + 1);
      }
      DigitsDetermine(a / 4, b / 4, m - 1);
    }
  }

  /** Reversing twice gives back any number of at most m digits. */
  lemma Rev4Involution(j: nat, m: nat)
    requires j < Pow4(m)
    ensures Rev4(Rev4(j, m), m) == j
  {
    var r := Rev4(j, m);
    Rev4Bound(j, m);
    Rev4Bound(r, m);
    forall i | 0 <= i < m
      ensures Digit(Rev4(r, m), i) == Digit(j, i)
    {
      Rev4Digits(r, m, i);
      Rev4Digits(j, m, m - 1 - i);
    }
    DigitsDetermine(Rev4(r, m), j, m);
  }

  // ---------------------------------------------------------------- powers and digits

  /** 4^n for n <= 14 is at most 2^28. */
  lemma Pow4Small(n: nat)
    requires n <= 14
    ensures Pow4(n) <= 0x1000_0000
  {
    Pow2Values();
    Pow4IsPow2(n);
    Pow2Monotone(2 * n, 28);
    assert Pow2(30) == 4 * Pow2(28);
  }

  /** Digit k is (j / 4^k) % 4. */
  lemma {:induction false} DigitIsDivMod(j: nat, k: nat)
    ensures Digit(j, k) == (j / Pow4(k)) % 4
  {
    if k > 0 {
      DigitIsDivMod(j / 4, k - 1);
      DivDiv(j, 4, Pow4(k - 1));
    }
  }

  /** A number below 2 * 4^m has digit m equal to 1 exactly when it is at least 4^m. */
  lemma TopDigit(j: nat, m: nat)
    requires j < 2 * Pow4(m)
    ensures j / Pow4(m) == (if j >= Pow4(m) then 1 else 0)
  {
    if j >= Pow4(m) {
      DivUnique(j, Pow4(m), 1, j - Pow4(m));
    } else {
      DivUnique(j, Pow4(m), 0, j);
    }
  }

  // ---------------------------------------------------------------- one step of the table loop

  /** `(j >>> 2k) & 3` is digit k of j. */
  lemma DigitTerm(j: nat, k: nat)
    requires j < TWO31 && k < 16
    ensures BitAnd(UnsignedShiftRight(j, 2 * k), 3) == Digit(j, k)
  {
    Pow2Values();
    UnsignedShiftRightSmall(j, 2 * k);
    Pow4IsPow2(k);
    var v := j / Pow4(k);
    DivAtMost(j, Pow4(k));
    AndThree(v);
    DigitIsDivMod(j, k);
    assert And(ToUint32(v), ToUint32(3)) == v % 4;
  }

  /** For a digit d, `d << (2e + 1)` is d * 2 * 4^e. */
  lemma DigitShift(d: nat, e: nat)
    requires d < 4 && e < 14
    ensures ShiftLeft(d, 2 * e + 1) == d * (2 * Pow4(e))
  {
    var p := Pow4(e);
    Pow4Small(e + 1);
    assert Pow4(e + 1) == 4 * p;
    Pow4IsPow2(e);
    assert Pow2(2 * e + 1) == 2 * p;
    MulMono(2 * p, d, 3);
    ShiftLeftSmall(d, 2 * e + 1);
  }

  /** 2^(2e + 3) is 8 * 4^e. */
  lemma Pow2OfOdd(e: nat)
    ensures Pow2(2 * e + 3) == 8 * Pow4(e)
  {
    Pow4IsPow2(e);
    assert Pow2(2 * e + 3) == 2 * Pow2(2 * e + 2) == 4 * Pow2(2 * e + 1) == 8 * Pow2(2 * e);
  }

  /** OR-ing a number below 2^p into a multiple of 2^p adds it, while the sum fits in 31 bits. */
  lemma OrAdds(c: nat, b: nat, p: nat)
    requires b < Pow2(p) && c * Pow2(p) + b < TWO31
    ensures BitOr(c * Pow2(p), b) == c * Pow2(p) + b
  {
    AtMostMultiple(c, Pow2(p));
    OrDisjoint(c, b, p);
    BitOrSmall(c * Pow2(p), b);
  }

  /** The term OR-ed in at step k < m is digit k of j, placed at bit 2(m - k - 1) + 1. */
  lemma StepTerm(j: nat, k: nat, m: nat)
    requires m <= 14 && k < m && j < 2 * Pow4(m)
    ensures BitrevTerm(j, 2 * k, 2 * m + 1 - 2 * k - 2) == Digit(j, k) * (2 * Pow4(m - k - 1))
  {
    Pow4Small(m);
    DigitTerm(j, k);
    DigitShift(Digit(j, k), m - k - 1);
    assert 2 * m + 1 - 2 * k - 2 == 2 * (m - k - 1) + 1;
  }

  lemma StepNumbers(r: nat, d: nat, p: nat, q: nat)
    requires d < 4 && 4 * r + d < q && p >= 1 && q * p <= 0x1000_0000
    ensures 2 * r * (4 * p) == r * (8 * p)
    ensures d * (2 * p) < 8 * p
    ensures 2 * r * (4 * p) + d * (2 * p) == 2 * (4 * r + d) * p
    ensures 2 * (4 * r + d) * p < TWO31
  {
    MulMono(2 * p, d, 3);
    MulMono(p, 4 * r + d + 1, q);
  }

  /** The arithmetic of step k < m: the entry is a multiple of 2^(2e + 3) and the term is below it. */
  lemma StepArith(j: nat, k: nat, m: nat)
    requires m <= 14 && k < m
    ensures var e := m - k - 1;
      && 2 * Rev4(j, k) * Pow4(m - k) == Rev4(j, k) * Pow2(2 * e + 3)
      && Digit(j, k) * (2 * Pow4(e)) < Pow2(2 * e + 3)
      && 2 * Rev4(j, k) * Pow4(m - k) + Digit(j, k) * (2 * Pow4(e)) == 2 * Rev4(j, k + 1) * Pow4(e)
      && 2 * Rev4(j, k + 1) * Pow4(e) < TWO31
  {
    var e := m - k - 1;
    var p := Pow4(e);
    var q := Pow4(k + 1);
    var r, d := Rev4(j, k), Digit(j, k);
    Rev4Bound(j, k + 1);
    Pow4Small(m);
    Pow4Add(k + 1, e);
    assert k + 1 + e == m;
    Pow4Step(m - k);
    Pow2OfOdd(e);
    StepNumbers(r, d, p, q);
  }

  lemma Pow4Step(n: nat)
    requires n > 0
    ensures Pow4(n) == 4 * Pow4(n - 1)
  {
  }

  /** The entry after k of the m + 1 passes: twice the reversal of j's k low digits, shifted to the top. */
  function PartialEntry(j: nat, k: nat, m: nat): int
    requires k <= m
  {
    2 * Rev4(j, k) * Pow4(m - k)
  }

  /**
   * Step k < m of the inner loop: with the entry holding 2 * Rev4(j, k) * 4^(m-k), OR-ing in
   * `((j >>> 2k) & 3) << (w - 2k - 2)` gives 2 * Rev4(j, k + 1) * 4^(m-k-1).
   */
  lemma BitrevStep(j: nat, k: nat, m: nat, acc: int, shift: int, revShift: int)
    requires m <= 14 && k < m && j < 2 * Pow4(m)
    requires acc == PartialEntry(j, k, m) && shift == 2 * k && revShift == 2 * m + 1 - shift - 2
    ensures BitOr(acc, BitrevTerm(j, shift, revShift)) == PartialEntry(j, k + 1, m)
  {
    StepTerm(j, k, m);
    StepArith(j, k, m);
    var b := Digit(j, k) * (2 * Pow4(m - k - 1));
    MulMono(Digit(j, k), 0, 2 * Pow4(m - k - 1));
    OrAdds(Rev4(j, k), b, 2 * (m - k - 1) + 3);
    assert acc == Rev4(j, k) * Pow2(2 * (m - k - 1) + 3);
    assert PartialEntry(j, k + 1, m) == acc + b;
  }

  lemma {:induction false} Pow4Add(a: nat, b: nat)
    ensures Pow4(a + b) == Pow4(a) * Pow4(b)
  {
    if a > 0 {
      Pow4Add(a - 1, b);
    }
  }

  /** `(j >>> 2m) & 3` is 1 when j >= 4^m and 0 otherwise, for j < 2 * 4^m. */
  lemma TopTerm(j: nat, m: nat)
    requires m <= 14 && j < 2 * Pow4(m)
    ensures BitrevTerm(j, 2 * m, -1) == (if j >= Pow4(m) then -TWO31 else 0)
  {
    Pow2Values();
    Pow4Small(m);
    DigitTerm(j, m);
    DigitIsDivMod(j, m);
    TopDigit(j, m);
    ShiftByMinusOne();
    var d := Digit(j, m);
    var q := j / Pow4(m);
    if j >= Pow4(m) {
      assert q == 1 && d == 1 % 4;
    } else {
      assert q == 0 && d == 0 % 4;
    }
    assert BitrevTerm(j, 2 * m, -1) == ShiftLeft(d, -1);
    assert ToUint32(d) == d;
    if d == 1 {
      assert ShiftLeft(d, -1) == ToInt32(TWO31);
      ToInt32High(TWO31);
    } else {
      assert ShiftLeft(d, -1) == ToInt32(0);
    }
  }

  /** OR-ing the sign bit into a non-negative 31-bit value subtracts 2^31 from it. */
  lemma OrSignBit(a: int)
    requires 0 <= a < TWO31
    ensures BitOr(a, -TWO31) == a - TWO31
  {
    assert Pow2(31) == TWO31 by {
      Pow2Values();
    }
    OrDisjoint(1, a, 31);
    OrCommutes(a, TWO31);
    var o := Or(a, TWO31);
    assert o == TWO31 + a;
    ToUint32Negative(-TWO31);
    assert BitOr(a, -TWO31) == ToInt32(o);
    ToInt32High(o);
  }

  /** OR-ing zero leaves a 31-bit value alone. */
  lemma OrZero(a: int)
    requires 0 <= a < TWO31
    ensures BitOr(a, 0) == a
  {
    BitOrZero(a);
  }

  /**
   * The last step (shift 2m, revShift -1): the `<< -1` shifts by 31, so it adds nothing for
   * j < 4^m and sets the sign bit otherwise, giving BitrevValue(j, 2m + 1).
   */
  lemma BitrevLastStep(j: nat, m: nat, acc: int, shift: int, revShift: int)
    requires m <= 14 && j < 2 * Pow4(m)
    requires acc == PartialEntry(j, m, m) && shift == 2 * m && revShift == 2 * m + 1 - shift - 2
    ensures BitOr(acc, BitrevTerm(j, shift, revShift)) == BitrevValue(j, 2 * m + 1)
  {
    Pow4Small(m);
    Rev4Bound(j, m);
    TopTerm(j, m);
    assert Pow4(0) == 1 && acc == 2 * Rev4(j, m);
    assert revShift == -1;
    assert (2 * m + 1) / 2 == m;
    if j < Pow4(m) {
      OrZero(acc);
    } else {
      OrSignBit(acc);
    }
  }

  lemma {:induction false} OrCommutes(a: nat, b: nat)
    ensures Or(a, b) == Or(b, a)
  {
    if a > 0 && b > 0 {
      OrCommutes(a / 2, b / 2);
    }
  }

  /** Below 4^m, the entry is twice the digit reversal, and the sign bit never enters. */
  lemma BitrevLowHalf(j: nat, m: nat)
    requires j < Pow4(m)
    ensures BitrevValue(j, 2 * m + 1) == 2 * Rev4(j, m)
  {
  }
}

/**
 * JavaScript's 32-bit integer operators on integer-valued Numbers: `| 0`, `&`, `|`,
 * `<<` and `>>>` convert their operands with ToInt32 / ToUint32 (section 7.1 of
 * ECMA-262), mask shift counts to five bits and give 32-bit results. The bitwise
 * operators are defined on the unsigned 32-bit patterns through `And` and `Or` on
 * naturals.
 */
module JsNumbers {

  const TWO31: int := 0x8000_0000
  const TWO32: int := 0x1_0000_0000

  function Pow2(n: nat): (r: nat)
    ensures r >= 1
  {
    if n == 0 then 1 else 2 * Pow2(n - 1)
  }

  function Pow4(n: nat): (r: nat)
    ensures r >= 1
  {
    if n == 0 then 1 else 4 * Pow4(n - 1)
  }

  /** ToUint32: the value modulo 2^32. */
  function ToUint32(x: int): (r: int)
    ensures 0 <= r < TWO32
    ensures 0 <= x < TWO32 ==> r == x
  {
    x % TWO32
  }

  /** ToInt32: the value modulo 2^32, read as a two's-complement 32-bit integer. */
  function ToInt32(x: int): (r: int)
    ensures -TWO31 <= r < TWO31
    ensures -TWO31 <= x < TWO31 ==> r == x
  {
    var u := x % TWO32;
    if u >= TWO31 then u - TWO32 else u
  }

  /** A negative 32-bit value's bit pattern is the value plus 2^32. */
  lemma ToUint32Negative(x: int)
    requires -TWO31 <= x < 0
    ensures ToUint32(x) == x + TWO32
  {
    assert x == (-1) * TWO32 + (x + TWO32);
  }

  /** A bit pattern with the sign bit set reads as the pattern minus 2^32. */
  lemma ToInt32High(x: int)
    requires TWO31 <= x < TWO32
    ensures ToInt32(x) == x - TWO32
  {
  }

  /** Bitwise and of two naturals. */
  function And(a: nat, b: nat): nat {
    if a == 0 || b == 0 then 0 else 2 * And(a / 2, b / 2) + (a % 2) * (b % 2)
  }

  /** Bitwise or of two naturals. */
  function Or(a: nat, b: nat): nat {
    if a == 0 then b
    else if b == 0 then a
    else 2 * Or(a / 2, b / 2) + (if a % 2 == 1 || b % 2 == 1 then 1 else 0)
  }

  /** `x & y`. */
  function BitAnd(x: int, y: int): int {
    ToInt32(And(ToUint32(x), ToUint32(y)))
  }

  /** `x | y`. */
  function BitOr(x: int, y: int): int {
    ToInt32(Or(ToUint32(x), ToUint32(y)))
  }

  /** The shift count a shift operator uses: its right operand's low five bits. */
  function ShiftCount(n: int): (r: nat)
    ensures r < 32
    ensures 0 <= n < 32 ==> r == n
  {
    ToUint32(n) % 32
  }

  /** `x << n`. */
  function ShiftLeft(x: int, n: int): int {
    ToInt32(ToUint32(x) * Pow2(ShiftCount(n)))
  }

  /** `x >>> n`. */
  function UnsignedShiftRight(x: int, n: int): (r: int)
    ensures 0 <= r < TWO32
  {
    DivAtMost(ToUint32(x), Pow2(ShiftCount(n)));
    ToUint32(x) / Pow2(ShiftCount(n))
  }

  lemma DivAtMost(a: nat, d: nat)
    requires d >= 1
    ensures 0 <= a / d <= a
  {
    var q := a / d;
    assert a == d * q + a % d;
    assert (d - 1) * q >= 0;
    assert d * q == q + (d - 1) * q;
  }

  /** n is 1, 2, 4, 8, ... */
  ghost predicate IsPowerOfTwo(n: int) {
    n == 1 || (n > 1 && n % 2 == 0 && IsPowerOfTwo(n / 2))
  }

  /** The exponent of a power of two. */
  ghost function Log2(n: int): (k: nat)
    requires IsPowerOfTwo(n)
    ensures Pow2(k) == n
  {
    if n == 1 then 0 else Log2(n / 2) + 1
  }

  // ---------------------------------------------------------------- lemmas

  lemma {:induction false} Pow2Add(a: nat, b: nat)
    ensures Pow2(a + b) == Pow2(a) * Pow2(b)
  {
    if a > 0 {
      Pow2Add(a - 1, b);
    }
  }

  lemma {:induction false} Pow2Monotone(a: nat, b: nat)
    requires a <= b
    ensures Pow2(a) <= Pow2(b)
  {
    if a < b {
      Pow2Monotone(a, b - 1);
    }
  }

  /** Powers of two are ordered like their exponents. */
  lemma Pow2Below(a: nat, b: nat)
    requires Pow2(a) < Pow2(b)
    ensures a < b
  {
    if a >= b {
      Pow2Monotone(b, a);
    }
  }

  /** 4^n is 2^(2n). */
  lemma {:induction false} Pow4IsPow2(n: nat)
    ensures Pow4(n) == Pow2(2 * n)
  {
    if n > 0 {
      Pow4IsPow2(n - 1);
      assert Pow2(2 * n) == 4 * Pow2(2 * (n - 1));
    }
  }

  lemma Pow2Values()
    ensures Pow2(1) == 2 && Pow2(29) == 0x2000_0000 && Pow2(30) == 0x4000_0000
    ensures Pow2(31) == TWO31 && Pow2(32) == TWO32
  {
    assert Pow2(10) == 1024;
    assert Pow2(20) == 1024 * 1024 by { Pow2Add(10, 10); }
    assert Pow2(30) == 1024 * 1024 * 1024 by { Pow2Add(20, 10); }
  }

  /** A natural is a power of two exactly when it has no bit in common with its predecessor. */
  lemma {:induction false} PowerOfTwoIffNoCommonBit(n: nat)
    requires n >= 1
    ensures And(n, n - 1) == 0 <==> IsPowerOfTwo(n)
    decreases n
  {
    if n == 1 {
    } else if n % 2 == 0 {
      PowerOfTwoIffNoCommonBit(n / 2);
      assert (n - 1) / 2 == n / 2 - 1;
      assert And(n, n - 1) == 2 * And(n / 2, n / 2 - 1);
    } else {
      AndSelf(n / 2);
      assert (n - 1) / 2 == n / 2;
      assert And(n, n - 1) == 2 * And(n / 2, n / 2);
      assert !IsPowerOfTwo(n);
    }
  }

  lemma {:induction false} AndSelf(a: nat)
    ensures And(a, a) == a
  {
    if a > 0 {
      AndSelf(a / 2);
      if a % 2 == 0 {
        assert And(a, a) == 2 * And(a / 2, a / 2);
      } else {
        assert And(a, a) == 2 * And(a / 2, a / 2) + 1;
      }
    }
  }

  lemma {:induction false} AndBound(a: nat, b: nat)
    ensures And(a, b) <= a && And(a, b) <= b
  {
    if a > 0 && b > 0 {
      AndBound(a / 2, b / 2);
    }
  }

  /** `a & 3` is a's last base-4 digit. */
  lemma AndThree(a: nat)
    ensures And(a, 3) == a % 4
  {
    if a > 0 {
      if a / 2 > 0 {
        assert And(a / 2, 1) == (a / 2) % 2;
      }
    }
  }

  /** Or of a multiple of 2^p with a number below 2^p is their sum. */
  lemma {:induction false} OrDisjoint(c: nat, b: nat, p: nat)
    requires b < Pow2(p)
    ensures Or(c * Pow2(p), b) == c * Pow2(p) + b
  {
    var a := c * Pow2(p);
    if a == 0 || b == 0 {
    } else {
      assert p > 0;
      var k := c * Pow2(p - 1);
      assert a == 2 * k;
      OrDisjoint(c, b / 2, p - 1);
      assert Or(a, b) == 2 * Or(k, b / 2) + (if b % 2 == 1 then 1 else 0);
    }
  }

  /** Or never loses the bits of its second operand's magnitude. */
  lemma {:induction false} OrAtLeast(a: nat, b: nat)
    ensures Or(a, b) >= a && Or(a, b) >= b
  {
    if a > 0 && b > 0 {
      OrAtLeast(a / 2, b / 2);
    }
  }

  /** Or of two numbers below 2^p stays below 2^p. */
  lemma {:induction false} OrBound(a: nat, b: nat, p: nat)
    requires a < Pow2(p) && b < Pow2(p)
    ensures Or(a, b) < Pow2(p)
  {
    if a > 0 && b > 0 {
      OrBound(a / 2, b / 2, p - 1);
    }
  }

  /** `a | b` on non-negative values below 2^31 is their Or. */
  lemma BitOrSmall(a: nat, b: nat)
    requires a < TWO31 && b < TWO31 && Or(a, b) < TWO31
    ensures BitOr(a, b) == Or(a, b)
  {
    assert ToUint32(a) == a && ToUint32(b) == b;
  }

  /** `x | 0` for an integer-valued Number is ToInt32(x). */
  lemma BitOrZero(x: int)
    ensures BitOr(x, 0) == ToInt32(x)
  {
    assert ToUint32(0) == 0;
    assert Or(ToUint32(x), 0) == ToUint32(x);
    assert ToUint32(x) % TWO32 == x % TWO32;
  }

  /** Shifting left by a count below 32 without overflowing 31 bits doubles exactly. */
  lemma ShiftLeftSmall(x: int, n: nat)
    requires 0 <= x && n < 32
    requires x * Pow2(n) < TWO31
    ensures ShiftLeft(x, n) == x * Pow2(n)
  {
    var p := Pow2(n);
    var y := x * p;
    AtMostMultiple(x, p);
    assert ToUint32(x) == x && ShiftCount(n) == n;
    assert ShiftLeft(x, n) == ToInt32(y);
  }

  lemma AtMostMultiple(x: nat, p: nat)
    requires p >= 1
    ensures x <= x * p
  {
    assert x * p == x * (p - 1) + x;
  }

  /** `<< -1` shifts by 31. */
  lemma ShiftByMinusOne()
    ensures ShiftCount(-1) == 31
  {
  }

  /** `x >>> n` on a non-negative value below 2^32 is division by 2^n. */
  lemma UnsignedShiftRightSmall(x: int, n: nat)
    requires 0 <= x < TWO32 && n < 32
    ensures UnsignedShiftRight(x, n) == x / Pow2(n)
  {
  }
}

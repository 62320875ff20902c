/**
 * `Math.min` on integers, and facts about integer multiplication and division that the
 * solver does not find alone.
 */
module Arith {

  /** `Math.min(a, b)`. */
  function Min(a: int, b: int): (m: int)
    ensures m <= a && m <= b && (m == a || m == b)
  {
    if a < b then a else b
  }

  lemma MulMono(d: int, a: int, b: int)
    requires 0 <= d && a <= b
    ensures d * a <= d * b
  {
    assert d * b == d * a + d * (b - a);
  }

  /** A positive factor can be cancelled from a strict inequality. */
  lemma MulCancel(d: int, a: int, b: int)
    requires d > 0 && d * a < d * b
    ensures a < b
  {
    if a >= b {
      MulMono(d, b, a);
    }
  }

  /** A positive factor can be cancelled from an inequality. */
  lemma MulCancelLe(d: int, a: int, b: int)
    requires d > 0 && d * a <= d * b
    ensures a <= b
  {
    assert d * (b + 1) == d * b + d;
    if a > b {
      MulMono(d, b + 1, a);
    }
  }

  lemma MulSmall(d: int, z: int)
    requires d > 0 && -d < d * z < d
    ensures z == 0
  {
    if z >= 1 {
      MulMono(d, 1, z);
    } else if z <= -1 {
      MulMono(d, z, -1);
    }
  }

  lemma DivUnique(x: nat, d: nat, q: nat, r: nat)
    requires d > 0 && x == d * q + r && r < d
    ensures x / d == q
  {
    var q' := x / d;
    assert x == d * q' + x % d;
    assert d * (q' - q) == r - x % d;
    MulSmall(d, q' - q);
  }

  lemma DivDiv(x: nat, a: nat, b: nat)
    requires a > 0 && b > 0
    ensures x / (a * b) == (x / a) / b
  {
    var q := x / a;
    var q2 := q / b;
    var r2 := q % b;
    var r1 := x % a;
    assert x == a * q + r1;
    assert q == b * q2 + r2;
    assert a * q == (a * b) * q2 + a * r2;
    MulMono(a, r2, b - 1);
    assert a * (b - 1) == a * b - a;
    DivUnique(x, a * b, q2, a * r2 + r1);
  }

  /** The row and column of a row-major index. */
  lemma RowMajor(y: nat, w: nat, x: nat)
    requires x < w
    ensures (y * w + x) / w == y && (y * w + x) % w == x
  {
    DivUnique(y * w + x, w, y, x);
  }

  /** A row-major index of a pixel inside a w by h frame lies below w * h. */
  lemma RowMajorBound(y: nat, w: nat, x: nat, h: nat)
    requires x < w && y < h
    ensures y * w + x < w * h
  {
    MulMono(w, y + 1, h);
  }

  /** The row after row y of a w by h frame starts w further on, at most at w * h. */
  lemma NextRow(y: nat, w: nat, h: nat)
    requires y < h
    ensures y * w + w == (y + 1) * w <= w * h
  {
    MulMono(w, y + 1, h);
  }

  /** floor(c * x / w) lies in [0, c) for 0 <= x < w. */
  lemma ScaledIndexBound(c: nat, x: nat, w: nat)
    requires x < w && c > 0
    ensures 0 <= (c * x) / w < c
  {
    var q := (c * x) / w;
    assert w * q <= c * x by {
      assert c * x == w * q + (c * x) % w;
    }
    MulMono(c, x, w - 1);
    assert c * (w - 1) == w * c - c;
    MulCancel(w, q, c);
  }
}

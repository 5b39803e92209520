/** Small facts about real arithmetic used by the tier and harness proofs. */
module RealMath {

  function Abs(x: real): (r: real)
    ensures r >= 0.0
    ensures r == x || r == -x
  {
    if x < 0.0 then -x else x
  }

  function Min(a: real, b: real): (r: real)
    ensures r <= a && r <= b
    ensures r == a || r == b
  {
    if a <= b then a else b
  }

  function Max(a: real, b: real): (r: real)
    ensures r >= a && r >= b
    ensures r == a || r == b
  {
    if a >= b then a else b
  }

  /** Scaling by a non-negative rate preserves order. */
  lemma MulMonotone(k: real, a: real, b: real)
    requires k >= 0.0 && a <= b
    ensures k * a <= k * b
  {
    assert k * b - k * a == k * (b - a);
  }

  /** |k * d| = |k| * |d|, and a bound on |d| carries over to the product. */
  lemma MulAbsBound(k: real, d: real, bound: real)
    requires Abs(d) <= bound
    ensures Abs(k * d) <= Abs(k) * bound
  {
    if k >= 0.0 {
      if d >= 0.0 { MulMonotone(k, d, bound); } else { MulMonotone(k, -d, bound); }
    } else {
      if d >= 0.0 { MulMonotone(-k, d, bound); } else { MulMonotone(-k, -d, bound); }
    }
  }

  /** Dividing by a positive quantity compares like multiplying the other side. */
  lemma DivCompare(a: real, d: real, k: real)
    requires d > 0.0
    ensures a / d > k <==> a > k * d
    ensures a / d < k <==> a < k * d
  {
    var q := a / d;
    assert q * d == a;
    assert a - k * d == (q - k) * d;
    PositiveProduct(q - k, d);
    PositiveProduct(k - q, d);
  }

  lemma PositiveProduct(x: real, d: real)
    requires d > 0.0
    ensures x > 0.0 <==> x * d > 0.0
  {
    if x > 0.0 {
      MulMonotone(d, 0.0, x);
      assert x * d != 0.0;
    } else {
      MulMonotone(d, x, 0.0);
    }
  }

  /** Non-negative weights on three changes, each between 0 and `w`, give a
      total change between 0 and the weights' sum times `w`. */
  lemma WeightedGrowth3(a0: real, a1: real, a2: real, d0: real, d1: real, d2: real,
                        change: real, w: real)
    requires a0 >= 0.0 && a1 >= 0.0 && a2 >= 0.0
    requires 0.0 <= d0 <= w && 0.0 <= d1 <= w && 0.0 <= d2 <= w
    requires change == (a0 * d0 + a1 * d1) + a2 * d2
    ensures 0.0 <= change <= (a0 + a1 + a2) * w
  {
    MulMonotone(a0, 0.0, d0); MulMonotone(a1, 0.0, d1); MulMonotone(a2, 0.0, d2);
    MulMonotone(a0, d0, w); MulMonotone(a1, d1, w); MulMonotone(a2, d2, w);
    assert (a0 + a1 + a2) * w == a0 * w + a1 * w + a2 * w;
  }

  /** Non-negative weights on coordinates that do not decrease give a weighted
      sum that does not decrease. */
  lemma WeightedSumMonotone4(a0: real, a1: real, a2: real, a3: real,
                             x0: real, x1: real, x2: real, x3: real,
                             y0: real, y1: real, y2: real, y3: real)
    requires a0 >= 0.0 && a1 >= 0.0 && a2 >= 0.0 && a3 >= 0.0
    requires x0 <= y0 && x1 <= y1 && x2 <= y2 && x3 <= y3
    ensures a0 * x0 + a1 * x1 + a2 * x2 + a3 * x3 <= a0 * y0 + a1 * y1 + a2 * y2 + a3 * y3
  {
    MulMonotone(a0, x0, y0);
    MulMonotone(a1, x1, y1);
    MulMonotone(a2, x2, y2);
    MulMonotone(a3, x3, y3);
  }

  /** Non-negative weights on four changes, each at most `w`, total at most
      the weights' sum times `w`. */
  lemma WeightedUpperBound4(a0: real, a1: real, a2: real, a3: real,
                            d0: real, d1: real, d2: real, d3: real, w: real)
    requires a0 >= 0.0 && a1 >= 0.0 && a2 >= 0.0 && a3 >= 0.0
    requires d0 <= w && d1 <= w && d2 <= w && d3 <= w
    ensures (a0 * d0 + a1 * d1) + (a2 * d2 + a3 * d3) <= (a0 + a1 + a2 + a3) * w
  {
    MulMonotone(a0, d0, w); MulMonotone(a1, d1, w);
    MulMonotone(a2, d2, w); MulMonotone(a3, d3, w);
    assert (a0 + a1 + a2 + a3) * w == a0 * w + a1 * w + a2 * w + a3 * w;
  }

  /** A non-zero jump followed by a slope over a short enough step stays at
      least half the jump away from zero. */
  lemma SmallSlopeKeepsJump(jump: real, slope: real, h: real)
    requires jump != 0.0
    requires 0.0 < h <= Abs(jump) / (2.0 * (Abs(slope) + 1.0))
    ensures Abs(jump + h * slope) >= Abs(jump) / 2.0
  {
    ShortStepIsSmall(Abs(jump), Abs(slope), h);
    AbsScale(h, slope);
  }

  /** Over a step of at most a / (2 (s + 1)), slope s moves by at most a / 2. */
  lemma ShortStepIsSmall(a: real, s: real, h: real)
    requires a >= 0.0 && s >= 0.0 && 0.0 <= h <= a / (2.0 * (s + 1.0))
    ensures h * s <= a / 2.0
  {
    MulMonotone(h, s, s + 1.0);
    MulMonotone(s + 1.0, h, a / (2.0 * (s + 1.0)));
    assert (s + 1.0) * (a / (2.0 * (s + 1.0))) == a / 2.0;
  }

  lemma AbsScale(h: real, x: real)
    requires h >= 0.0
    ensures Abs(h * x) == h * Abs(x)
  {
    if x < 0.0 {
      assert h * x == -(h * -x);
      MulMonotone(h, 0.0, -x);
    } else {
      MulMonotone(h, 0.0, x);
    }
  }
}

/**
 * The medium's reachability model (the arithmetic of `WsnMedium.spread`).
 * Positions and radii are reals; the distance is used squared, exactly as
 * `d * d` appears in the source, so no square root is needed.
 */
module Radio {

  function DistanceSquared(x1: real, y1: real, x2: real, y2: real): (d2: real)
    ensures d2 >= 0.0
    ensures x1 == x2 && y1 == y2 ==> d2 == 0.0
  {
    var dx, dy := x1 - x2, y1 - y2;
    SquarePositive(dx);
    SquarePositive(dy);
    dx * dx + dy * dy
  }

  lemma SquarePositive(a: real)
    ensures a * a >= 0.0
    ensures a != 0.0 ==> a * a > 0.0
    ensures a == 0.0 ==> a * a == 0.0
  {
    if a < 0.0 {
      assert a * a == (-a) * (-a);
    }
  }

  /** The success probability of one delivery: `0` when `r1 * r2 <= 0`, else `1 - d*d/r1/r2`. */
  function ReachProbability(x1: real, y1: real, r1: real, x2: real, y2: real, r2: real): (p: real)
    ensures p <= 1.0
    ensures r1 * r2 <= 0.0 ==> p == 0.0
  {
    if r1 * r2 <= 0.0 then 0.0
    else
      var d2 := DistanceSquared(x1, y1, x2, y2);
      QuotientNonNegative(d2, r1, r2);
      1.0 - d2 / r1 / r2
  }

  /** `spread` only draws for a target when the probability is positive. */
  predicate Reachable(x1: real, y1: real, r1: real, x2: real, y2: real, r2: real) {
    ReachProbability(x1, y1, r1, x2, y2, r2) > 0.0
  }

  lemma QuotientNonNegative(d2: real, r1: real, r2: real)
    requires d2 >= 0.0 && r1 * r2 > 0.0
    ensures d2 / r1 / r2 >= 0.0
    ensures d2 / r1 / r2 == d2 / (r1 * r2)
  {
    assert r1 != 0.0 && r2 != 0.0;
    if r1 > 0.0 {
      assert r2 > 0.0;
    } else {
      assert r2 < 0.0;
      assert d2 / r1 <= 0.0;
    }
  }

  lemma SameSignProduct(r1: real, r2: real)
    requires (r1 > 0.0 && r2 > 0.0) || (r1 < 0.0 && r2 < 0.0)
    ensures !(r1 * r2 <= 0.0)
  {
  }

  /** A target is reachable exactly when both radii have the same sign and `d² < r1·r2`. */
  lemma ReachableIff(x1: real, y1: real, r1: real, x2: real, y2: real, r2: real)
    ensures Reachable(x1, y1, r1, x2, y2, r2)
        <==> r1 * r2 > 0.0 && DistanceSquared(x1, y1, x2, y2) < r1 * r2
  {
    if r1 * r2 > 0.0 {
      var d2 := DistanceSquared(x1, y1, x2, y2);
      var rr := r1 * r2;
      QuotientNonNegative(d2, r1, r2);
      assert d2 / rr * rr == d2;
      if d2 < rr {
        if d2 / rr >= 1.0 {
          assert d2 / rr * rr >= 1.0 * rr;
        }
      } else {
        AtLeastOneQuotient(d2, rr);
      }
    }
  }

  lemma AtLeastOneQuotient(a: real, b: real)
    requires b > 0.0 && a >= b
    ensures a / b >= 1.0
  {
    var q := a / b;
    assert q * b == a;
  }

  /** The probability is the same in both directions. */
  lemma ReachSymmetric(x1: real, y1: real, r1: real, x2: real, y2: real, r2: real)
    ensures ReachProbability(x1, y1, r1, x2, y2, r2) == ReachProbability(x2, y2, r2, x1, y1, r1)
  {
    if r1 * r2 > 0.0 {
      QuotientNonNegative(DistanceSquared(x1, y1, x2, y2), r1, r2);
      QuotientNonNegative(DistanceSquared(x2, y2, x1, y1), r2, r1);
      assert r1 * r2 == r2 * r1;
      assert DistanceSquared(x1, y1, x2, y2) == DistanceSquared(x2, y2, x1, y1);
    } else {
      assert r2 * r1 <= 0.0;
    }
  }

  /** A node with a positive radius reaches itself with certainty (`d = 0` gives `p = 1`). */
  lemma SelfReachCertain(x: real, y: real, r: real)
    requires r > 0.0
    ensures ReachProbability(x, y, r, x, y, r) == 1.0
  {
    SameSignProduct(r, r);
    var d2 := DistanceSquared(x, y, x, y);
    assert d2 == 0.0;
    assert d2 / r == 0.0;
  }
}

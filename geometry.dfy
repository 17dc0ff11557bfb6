/** The pure geometry helpers of the controller (utils.py): clamping a value
    to a range, linear interpolation and planar Euclidean distance.
    Coordinates are mathematical reals. */
module Geometry {

  function Min(a: real, b: real): real { if a <= b then a else b }

  function Max(a: real, b: real): real { if a >= b then a else b }

  /** clamp(value, lo, hi) is `max(lo, min(value, hi))`. Because the maximum
      is taken last, an empty range (lo > hi) yields lo. */
  function Clamp(v: real, lo: real, hi: real): (r: real)
    ensures lo <= hi ==> lo <= r <= hi
    ensures lo <= v <= hi ==> r == v
    ensures lo <= hi && v < lo ==> r == lo
    ensures lo <= hi && hi < v ==> r == hi
    ensures hi < lo ==> r == lo
  {
    Max(lo, Min(v, hi))
  }

  /** Clamping twice is clamping once, for every range, empty ones included. */
  lemma ClampIdempotent(v: real, lo: real, hi: real)
    ensures Clamp(Clamp(v, lo, hi), lo, hi) == Clamp(v, lo, hi)
  {
  }

  /** Clamping never reverses the order of two values. */
  lemma ClampMonotone(v1: real, v2: real, lo: real, hi: real)
    requires v1 <= v2
    ensures Clamp(v1, lo, hi) <= Clamp(v2, lo, hi)
  {
  }

  /** lerp(start, end, t) is `start + (end - start) * t`. What remains of the
      gap to `end` is the old gap scaled by 1 - t. */
  function Lerp(a: real, b: real, t: real): (r: real)
    ensures t == 0.0 ==> r == a
    ensures t == 1.0 ==> r == b
    ensures 0.0 <= t <= 1.0 ==> Min(a, b) <= r <= Max(a, b)
    ensures r - b == (1.0 - t) * (a - b)
  {
    LerpFacts(a, b, t);
    a + (b - a) * t
  }

  lemma LerpFacts(a: real, b: real, t: real)
    ensures a + (b - a) * t - b == (1.0 - t) * (a - b)
    ensures 0.0 <= t <= 1.0 ==> Min(a, b) <= a + (b - a) * t <= Max(a, b)
  {
    LerpResidual(a, b, t);
    if 0.0 <= t <= 1.0 {
      LerpBetween(a, b, t);
    }
  }

  lemma MulNonNeg(x: real, y: real)
    requires 0.0 <= x && 0.0 <= y
    ensures 0.0 <= x * y
  {
  }

  lemma LerpBetween(a: real, b: real, t: real)
    requires 0.0 <= t <= 1.0
    ensures Min(a, b) <= a + (b - a) * t <= Max(a, b)
  {
    if a <= b {
      var d := b - a;
      MulNonNeg(d, t);
      MulNonNeg(d, 1.0 - t);
      assert d * (1.0 - t) == d - d * t;
      assert a + (b - a) * t == a + d * t;
    } else {
      var d := a - b;
      MulNonNeg(d, t);
      MulNonNeg(d, 1.0 - t);
      assert d * (1.0 - t) == d - d * t;
      assert a + (b - a) * t == a - d * t;
    }
  }

  lemma LerpResidual(a: real, b: real, t: real)
    ensures a + (b - a) * t - b == (1.0 - t) * (a - b)
  {
    var d := a - b;
    assert (b - a) * t == -(d * t);
    assert (1.0 - t) * d == d - t * d;
  }

  /** Scaling by a factor in [0, 1] moves a number towards zero, not past it. */
  lemma ScaleWithinUnit(d: real, t: real)
    requires 0.0 <= t <= 1.0
    ensures 0.0 <= d ==> 0.0 <= d * t <= d
    ensures d <= 0.0 ==> d <= d * t <= 0.0
  {
    assert d - d * t == d * (1.0 - t);
    if 0.0 <= d {
      MulNonNeg(d, t);
      MulNonNeg(d, 1.0 - t);
    } else {
      MulNonNeg(-d, t);
      MulNonNeg(-d, 1.0 - t);
      assert (-d) * t == -(d * t);
      assert (-d) * (1.0 - t) == -(d * (1.0 - t));
    }
  }

  /** The square of the distance between (x1, y1) and (x2, y2). */
  function DistanceSquared(x1: real, y1: real, x2: real, y2: real): (r: real)
    ensures 0.0 <= r
  {
    (x2 - x1) * (x2 - x1) + (y2 - y1) * (y2 - y1)
  }

  /** d is distance_2d(x1, y1, x2, y2), that is math.hypot(x2 - x1, y2 - y1):
      the non-negative square root of the squared distance. */
  ghost predicate IsDistance(d: real, x1: real, y1: real, x2: real, y2: real)
    ensures IsDistance(d, x1, y1, x2, y2) ==> (d == 0.0 <==> x1 == x2 && y1 == y2)
  {
    ZeroDistanceSamePoint(d, x1, y1, x2, y2);
    0.0 <= d && d * d == DistanceSquared(x1, y1, x2, y2)
  }

  lemma ZeroDistanceSamePoint(d: real, x1: real, y1: real, x2: real, y2: real)
    ensures 0.0 <= d && d * d == DistanceSquared(x1, y1, x2, y2) ==> (d == 0.0 <==> x1 == x2 && y1 == y2)
  {
    if 0.0 < d {
      SquareMonotone(0.0, d);
    }
    SquareZero(x2 - x1);
    SquareZero(y2 - y1);
  }

  /** A square is zero only at zero. */
  lemma SquareZero(a: real)
    ensures 0.0 <= a * a
    ensures a * a == 0.0 ==> a == 0.0
  {
    if a < 0.0 {
      MulNonNeg(-a, -a);
      assert (-a) * (-a) == a * a;
      SquareMonotone(0.0, -a);
    } else if 0.0 < a {
      SquareMonotone(0.0, a);
    }
  }

  lemma SquareMonotone(a: real, b: real)
    requires 0.0 <= a < b
    ensures a * a < b * b
  {
    var aa, ab, bb := a * a, a * b, b * b;
    assert aa <= ab;
    assert ab < bb;
  }

  /** For non-negative numbers, comparing squares is comparing the numbers. */
  lemma SquareLessIff(a: real, b: real)
    requires 0.0 <= a && 0.0 <= b
    ensures a * a < b * b <==> a < b
  {
    if a < b {
      SquareMonotone(a, b);
    } else if b < a {
      SquareMonotone(b, a);
    }
  }

  /** The relation determines the distance: there is at most one. */
  lemma DistanceUnique(d1: real, d2: real, x1: real, y1: real, x2: real, y2: real)
    requires IsDistance(d1, x1, y1, x2, y2) && IsDistance(d2, x1, y1, x2, y2)
    ensures d1 == d2
  {
    if d1 < d2 {
      SquareLessIff(d1, d2);
    } else if d2 < d1 {
      SquareLessIff(d2, d1);
    }
  }

  /** The distance is symmetric in its two points. */
  lemma DistanceSymmetric(d: real, x1: real, y1: real, x2: real, y2: real)
    ensures IsDistance(d, x1, y1, x2, y2) <==> IsDistance(d, x2, y2, x1, y1)
  {
    assert DistanceSquared(x1, y1, x2, y2) == DistanceSquared(x2, y2, x1, y1);
  }

  /** The distance of a point to itself is zero, and only zero. */
  lemma DistanceToSelf(d: real, x: real, y: real)
    ensures IsDistance(0.0, x, y, x, y)
    ensures IsDistance(d, x, y, x, y) ==> d == 0.0
  {
    if IsDistance(d, x, y, x, y) {
      DistanceUnique(d, 0.0, x, y, x, y);
    }
  }

  lemma SquareScaled(k: real, a: real)
    ensures (k * a) * (k * a) == (k * k) * (a * a)
  {
  }

  /** Moving (x1, y1) towards (x2, y2) so that both offsets shrink by the
      factor k >= 0 shrinks the distance between them by k. */
  lemma DistanceScaled(d: real, k: real, x1: real, y1: real, x2: real, y2: real, x3: real, y3: real)
    requires IsDistance(d, x1, y1, x2, y2)
    requires 0.0 <= k
    requires x3 - x2 == k * (x1 - x2) && y3 - y2 == k * (y1 - y2)
    ensures IsDistance(k * d, x3, y3, x2, y2)
  {
    var a, b := x1 - x2, y1 - y2;
    var ka, kb := x3 - x2, y3 - y2;
    assert DistanceSquared(x1, y1, x2, y2) == a * a + b * b;
    assert DistanceSquared(x3, y3, x2, y2) == ka * ka + kb * kb;
    SquareScaled(k, a);
    SquareScaled(k, b);
    SquareScaled(k, d);
    var kk := k * k;
    assert kk * (a * a) + kk * (b * b) == kk * (a * a + b * b);
    assert 0.0 <= k * d;
  }

  /** `distance < bound`, decided without the square root. Correct for every
      bound, negative ones included (no distance is below a bound <= 0). */
  predicate DistanceBelow(x1: real, y1: real, x2: real, y2: real, bound: real)
    ensures DistanceBelow(x1, y1, x2, y2, bound) ==> 0.0 < bound
    ensures x1 == x2 && y1 == y2 ==> (DistanceBelow(x1, y1, x2, y2, bound) <==> 0.0 < bound)
  {
    SquareZero(bound);
    0.0 < bound && DistanceSquared(x1, y1, x2, y2) < bound * bound
  }

  /** `distance > bound`, decided without the square root (every distance is
      above a negative bound). */
  predicate DistanceAbove(x1: real, y1: real, x2: real, y2: real, bound: real)
    ensures bound < 0.0 ==> DistanceAbove(x1, y1, x2, y2, bound)
    ensures x1 == x2 && y1 == y2 ==> (DistanceAbove(x1, y1, x2, y2, bound) <==> bound < 0.0)
  {
    SquareZero(bound);
    bound < 0.0 || bound * bound < DistanceSquared(x1, y1, x2, y2)
  }

  lemma DistanceBelowIff(d: real, x1: real, y1: real, x2: real, y2: real, bound: real)
    requires IsDistance(d, x1, y1, x2, y2)
    ensures DistanceBelow(x1, y1, x2, y2, bound) <==> d < bound
  {
    if 0.0 < bound {
      SquareLessIff(d, bound);
    }
  }

  lemma DistanceAboveIff(d: real, x1: real, y1: real, x2: real, y2: real, bound: real)
    requires IsDistance(d, x1, y1, x2, y2)
    ensures DistanceAbove(x1, y1, x2, y2, bound) <==> bound < d
  {
    if 0.0 <= bound {
      SquareLessIff(bound, d);
    }
  }

  /** No distance is both below and above the same bound. */
  lemma DistanceBelowExcludesAbove(x1: real, y1: real, x2: real, y2: real, bound: real)
    ensures !(DistanceBelow(x1, y1, x2, y2, bound) && DistanceAbove(x1, y1, x2, y2, bound))
  {
  }
}

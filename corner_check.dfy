/**
 * The corner sanity check of the augmented-reality Processor (`sanityCheckCorners`).
 *
 * The source measures the four sides of the detected quad with `Math.sqrt` and rejects the
 * quad when the top side is not within [0.5, 1.5] times the bottom side, the left side not within
 * [0.7, 1.3] times the right side, or the left side not within [0.5, 1.5] times the bottom side.
 * `SideLengthsPlausible` is that decision on the four lengths; `SanityCheckCorners` is the same
 * decision on a quad, taken on squared lengths (there is no square root in Dafny), and
 * `SanityCheckCornersOnLengths` proves the two agree.
 */
module CornerCheck {
  import opened Geometry

  /** The three tests of sanityCheckCorners, in source order, on the four side lengths. */
  function SideLengthsPlausible(top: real, left: real, right: real, bottom: real): (ok: bool)
    // the rejections use strict comparisons, so the accepted ranges are closed
    ensures ok <==>
      && 0.5 * bottom <= top <= 1.5 * bottom
      && 0.7 * right <= left <= 1.3 * right
      && 0.5 * bottom <= left <= 1.5 * bottom
  {
    if top < 0.5 * bottom || top > 1.5 * bottom then false
    else if left < 0.7 * right || left > 1.3 * right then false
    else if left < 0.5 * bottom || left > 1.5 * bottom then false
    else true
  }

  function TopSquared(q: Quad): real { SquaredDistance(q.topLeft, q.topRight) }
  function LeftSquared(q: Quad): real { SquaredDistance(q.topLeft, q.bottomLeft) }
  function RightSquared(q: Quad): real { SquaredDistance(q.topRight, q.bottomRight) }
  function BottomSquared(q: Quad): real { SquaredDistance(q.bottomLeft, q.bottomRight) }

  /** sanityCheckCorners on a quad: each ratio bound of the source squared (0.5 -> 0.25, 1.3 -> 1.69, ...). */
  function SanityCheckCorners(q: Quad): (ok: bool)
    ensures ok <==>
      && 0.25 * BottomSquared(q) <= TopSquared(q) <= 2.25 * BottomSquared(q)
      && 0.49 * RightSquared(q) <= LeftSquared(q) <= 1.69 * RightSquared(q)
      && 0.25 * BottomSquared(q) <= LeftSquared(q) <= 2.25 * BottomSquared(q)
  {
    var top, left, right, bottom := TopSquared(q), LeftSquared(q), RightSquared(q), BottomSquared(q);
    if top < 0.25 * bottom || top > 2.25 * bottom then false
    else if left < 0.49 * right || left > 1.69 * right then false
    else if left < 0.25 * bottom || left > 2.25 * bottom then false
    else true
  }

  lemma ProductPositive(a: real, b: real)
    requires a > 0.0 && b > 0.0
    ensures a * b > 0.0
  {
  }

  lemma ProductNonNegative(a: real, b: real)
    requires a >= 0.0 && b >= 0.0
    ensures a * b >= 0.0
  {
  }

  lemma SquareStrict(u: real, v: real)
    requires 0.0 <= u < v
    ensures u * u < v * v
  {
    ProductPositive(v - u, v + u);
  }

  /** On non-negative reals, squaring preserves and reflects the strict order. */
  lemma SquareMonotone(u: real, v: real)
    requires 0.0 <= u && 0.0 <= v
    ensures u < v <==> u * u < v * v
  {
    if u < v {
      SquareStrict(u, v);
    } else if v < u {
      SquareStrict(v, u);
    }
  }

  /**
   * One ratio test on lengths against the same test on squared lengths: for a, b >= 0 and
   * k > 0, comparing a with k * b is comparing a * a with (k * k) * (b * b).
   */
  lemma RatioTestBySquares(a: real, b: real, k: real, aa: real, bb: real, kk: real)
    requires 0.0 <= a && 0.0 <= b && 0.0 < k
    requires aa == a * a && bb == b * b && kk == k * k
    ensures a < k * b <==> aa < kk * bb
    ensures a > k * b <==> aa > kk * bb
  {
    ProductNonNegative(k, b);
    assert (k * b) * (k * b) == (k * k) * (b * b);
    SquareMonotone(a, k * b);
    SquareMonotone(k * b, a);
  }

  /**
   * The sqrt-free check agrees with the source's decision on the true side lengths:
   * whatever non-negative lengths square to the four squared sides, the verdicts match.
   */
  lemma SanityCheckCornersOnLengths(q: Quad, top: real, left: real, right: real, bottom: real)
    requires 0.0 <= top && 0.0 <= left && 0.0 <= right && 0.0 <= bottom
    requires top * top == TopSquared(q) && left * left == LeftSquared(q)
    requires right * right == RightSquared(q) && bottom * bottom == BottomSquared(q)
    ensures SanityCheckCorners(q) == SideLengthsPlausible(top, left, right, bottom)
  {
    var t, l, r, b := TopSquared(q), LeftSquared(q), RightSquared(q), BottomSquared(q);
    RatioTestBySquares(top, bottom, 0.5, t, b, 0.25);
    RatioTestBySquares(top, bottom, 1.5, t, b, 2.25);
    RatioTestBySquares(left, right, 0.7, l, r, 0.49);
    RatioTestBySquares(left, right, 1.3, l, r, 1.69);
    RatioTestBySquares(left, bottom, 0.5, l, b, 0.25);
    RatioTestBySquares(left, bottom, 1.5, l, b, 2.25);
  }

  /** A quad whose four sides have the same length passes. */
  lemma EqualSidesAccepted(q: Quad)
    requires TopSquared(q) == LeftSquared(q) == RightSquared(q) == BottomSquared(q)
    ensures SanityCheckCorners(q)
  {
  }

  /** The axis-aligned square with corner (x, y) and side s, as the corner estimator reports it. */
  function AxisAlignedSquare(x: real, y: real, s: real): Quad
  {
    Quad(Point(x, y), Point(x + s, y), Point(x, y + s), Point(x + s, y + s))
  }

  lemma AxisAlignedSquareAccepted(x: real, y: real, s: real)
    ensures SanityCheckCorners(AxisAlignedSquare(x, y, s))
  {
    EqualSidesAccepted(AxisAlignedSquare(x, y, s));
  }

  /** A top side three times the bottom side fails the first test, whatever the other two sides are. */
  lemma TopThreeTimesBottomRejected(left: real, right: real, bottom: real)
    requires bottom > 0.0
    ensures !SideLengthsPlausible(3.0 * bottom, left, right, bottom)
  {
  }

  /** The same on a quad: a top side whose squared length is 9 times the bottom's is rejected. */
  lemma TopThreeTimesBottomQuadRejected(q: Quad)
    requires BottomSquared(q) > 0.0
    requires TopSquared(q) == 9.0 * BottomSquared(q)
    ensures !SanityCheckCorners(q)
  {
  }

  /** The check accepts a quad collapsed to a single point: every side is 0 and no strict test fires. */
  lemma CollapsedQuadAccepted(p: Point)
    ensures SanityCheckCorners(Quad(p, p, p, p))
  {
  }
}

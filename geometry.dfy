/**
 * The two free helpers of the perspective control: the Euclidean distance
 * between two points (`getDistance`) and the pinch scale between two pairs of
 * touch points (`getScale`).
 *
 * `Math.sqrt` is not modelled: every member that needs it takes it as a
 * parameter `sqrt`, and `IsSqrt` states what a square root is for the
 * lemmas that depend on it.
 */
module Geometry {

  datatype Point = Point(x: real, y: real)

  /** The square of the Euclidean distance (`Math.pow(d, 2)` is `d * d`). */
  function SquaredDistance(start: Point, stop: Point): (r: real)
    ensures 0.0 <= r
    ensures start == stop ==> r == 0.0
  {
    var dx, dy := stop.x - start.x, stop.y - start.y;
    SquareNonNegative(dx);
    SquareNonNegative(dy);
    dx * dx + dy * dy
  }

  /** `sqrt` returns the non-negative square root of every non-negative real. */
  ghost predicate IsSqrt(sqrt: real -> real) {
    forall x: real :: 0.0 <= x ==> 0.0 <= sqrt(x) && sqrt(x) * sqrt(x) == x
  }

  /** `getDistance`: the square root of the squared distance. */
  function Distance(sqrt: real -> real, start: Point, stop: Point): (r: real)
    ensures IsSqrt(sqrt) ==> 0.0 <= r && r * r == SquaredDistance(start, stop)
  {
    sqrt(SquaredDistance(start, stop))
  }

  /**
   * The branch of `getScale` once both distances are known: `s` is the
   * distance of the previous pair, `e` that of the current pair. Fingers
   * that close (`s > e`) give the ratio `s / e`, above 1; fingers that open
   * or stay still give `-e / s`, at most -1. No result lies in (-1, 1).
   */
  function Scale(s: real, e: real): (r: real)
    requires 0.0 < s && 0.0 < e
    ensures 1.0 < r <==> e < s
    ensures r <= -1.0 <==> s <= e
    ensures !(-1.0 < r < 1.0)
    ensures 0.0 < r ==> r * e == s
    ensures r < 0.0 ==> -r * s == e
    ensures s == e ==> r == -1.0
  {
    if s - e > 0.0 then
      assert s / e * e == s;
      assert 1.0 < s / e by { assert e * 1.0 < e * (s / e); }
      s / e
    else
      assert e / s * s == e;
      assert 1.0 <= e / s by { assert s * 1.0 <= s * (e / s); }
      -e / s
  }

  /** The distance between the first two points of a touch list. */
  function PairDistance(sqrt: real -> real, points: seq<Point>): (r: real)
    requires 2 <= |points|
    ensures IsSqrt(sqrt) ==> 0.0 <= r && r * r == SquaredDistance(points[0], points[1])
  {
    Distance(sqrt, points[0], points[1])
  }

  /** `getScale`: the pinch scale from the pair `start` to the pair `stop`. */
  function GetScale(sqrt: real -> real, start: seq<Point>, stop: seq<Point>): (r: real)
    requires 2 <= |start| && 2 <= |stop|
    requires 0.0 < PairDistance(sqrt, start) && 0.0 < PairDistance(sqrt, stop)
    ensures 1.0 < r <==> PairDistance(sqrt, stop) < PairDistance(sqrt, start)
    ensures r <= -1.0 <==> PairDistance(sqrt, start) <= PairDistance(sqrt, stop)
    ensures start[..2] == stop[..2] ==> r == -1.0
  {
    assert start[..2] == stop[..2] ==> start[0] == stop[0] && start[1] == stop[1] by {
      if start[..2] == stop[..2] {
        assert start[0] == start[..2][0] && start[1] == start[..2][1];
      }
    }
    Scale(PairDistance(sqrt, start), PairDistance(sqrt, stop))
  }

  /** A square is never negative. */
  lemma SquareNonNegative(a: real)
    ensures 0.0 <= a * a
  {
  }

  /** For non-negative reals, comparing squares compares the numbers. */
  lemma SquareMonotone(a: real, b: real)
    requires 0.0 <= a && 0.0 <= b
    ensures a < b <==> a * a < b * b
  {
    var aa, ab, bb := a * a, a * b, b * b;
    if a < b {
      assert aa <= ab;
      assert ab < bb;
    } else {
      assert bb <= ab;
      assert ab <= aa;
    }
  }

  /**
   * With a true square root, the sign of the pinch scale is decided by the
   * squared distances alone: the scale is positive exactly when the fingers
   * end closer together than they started.
   */
  lemma PinchDirection(sqrt: real -> real, start: seq<Point>, stop: seq<Point>)
    requires IsSqrt(sqrt)
    requires 2 <= |start| && 2 <= |stop|
    requires 0.0 < PairDistance(sqrt, start) && 0.0 < PairDistance(sqrt, stop)
    ensures 0.0 < GetScale(sqrt, start, stop)
        <==> SquaredDistance(stop[0], stop[1]) < SquaredDistance(start[0], start[1])
  {
    SquareMonotone(PairDistance(sqrt, stop), PairDistance(sqrt, start));
  }
}

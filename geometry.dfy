/**
 * Points, the window and disk hit-tests shared by every part of the kitchen.
 *
 * The program works in two coordinate systems: normalised touch coordinates
 * in [0,1]x[0,1] and world (pixel) coordinates.  Floats are modelled as
 * reals.  The program compares `sqrt(dx*dx + dy*dy) <= radius`; since a
 * square root is never negative, that comparison is the same as
 * `0 <= radius && dx*dx + dy*dy <= radius*radius`, which is what `InDisk`
 * states, so no square root is needed.
 */
module Geometry {

  /** An `ofPoint` restricted to the two coordinates the program uses. */
  datatype Point = Point(x: real, y: real) {
    function Plus(o: Point): Point { Point(x + o.x, y + o.y) }
    function Minus(o: Point): Point { Point(x - o.x, y - o.y) }
  }

  const Zero := Point(0.0, 0.0)

  /** The window size, as returned by `ofGetWidth()` and `ofGetHeight()`. */
  datatype Viewport = Viewport(width: int, height: int)

  predicate ValidViewport(vp: Viewport) { vp.width > 0 && vp.height > 0 }

  /** Scales a normalised point to world (pixel) coordinates. */
  function ToWorld(p: Point, vp: Viewport): Point {
    Point(p.x * vp.width as real, p.y * vp.height as real)
  }

  /**
   * The normalisation every touch handler performs first: with `fullRange`
   * the coordinates are pixels and are divided by the window size.
   */
  function Normalize(x: real, y: real, fullRange: bool, vp: Viewport): Point
    requires ValidViewport(vp)
  {
    if fullRange then Point(x / vp.width as real, y / vp.height as real) else Point(x, y)
  }

  function SqDist(a: Point, b: Point): (s: real)
    ensures s >= 0.0
  {
    (a.x - b.x) * (a.x - b.x) + (a.y - b.y) * (a.y - b.y)
  }

  /** `sqrt(SqDist(q, c)) <= r`: the inclusive disk test of the program. */
  predicate InDisk(q: Point, c: Point, r: real) {
    0.0 <= r && SqDist(q, c) <= r * r
  }

  function Min(a: real, b: real): real { if a <= b then a else b }
  function Max(a: real, b: real): real { if a >= b then a else b }

  /** `max(min(v, 1), 0)`, the clamp of the kitchen's drag offset. */
  function Clamp01(v: real): (r: real)
    ensures 0.0 <= r <= 1.0
    ensures 0.0 <= v <= 1.0 ==> r == v
    ensures v < 0.0 ==> r == 0.0
    ensures v > 1.0 ==> r == 1.0
  {
    Max(Min(v, 1.0), 0.0)
  }

  predicate InUnitSquare(p: Point) { 0.0 <= p.x <= 1.0 && 0.0 <= p.y <= 1.0 }

  /** A pixel touch, once normalised, scales back to the very same pixel. */
  lemma NormalizeRoundTrip(x: real, y: real, vp: Viewport)
    requires ValidViewport(vp)
    ensures ToWorld(Normalize(x, y, true, vp), vp) == Point(x, y)
  {
  }

  /** On non-negative reals, squaring preserves and reflects the order. */
  lemma SquareMonotone(a: real, b: real)
    requires 0.0 <= a && 0.0 <= b
    ensures a <= b <==> a * a <= b * b
  {
    var aa, ab, bb := a * a, a * b, b * b;
    if a <= b {
      assert aa <= ab;
      assert ab <= bb;
    } else {
      assert bb <= ab;
      assert ab < aa;
    }
  }

  /** Multiplying by a positive factor preserves strict order. */
  lemma MulMono(q: real, c: real, b: real)
    requires b > 0.0
    ensures q > c ==> q * b > c * b
    ensures q < c ==> q * b < c * b
  {
    var qb, cb := q * b, c * b;
    var diff := (q - c) * b;
    assert diff == qb - cb;
  }

  /** Dividing out a positive factor preserves order. */
  lemma MulCancel(q: real, c: real, b: real)
    requires b > 0.0
    ensures q * b < c * b ==> q < c
    ensures q * b <= c * b ==> q <= c
  {
    MulMono(q, c, b);
  }

  /** Where a quotient by a positive number lies against 0 and 1. */
  lemma QuotientBounds(a: real, b: real)
    requires b > 0.0
    ensures 0.0 <= a ==> 0.0 <= a / b
    ensures a <= b ==> a / b <= 1.0
    ensures a > b ==> a / b > 1.0
  {
    var q := a / b;
    assert q * b == a;
    MulCancel(0.0, q, b);
    MulCancel(q, 1.0, b);
    MulCancel(1.0, q, b);
  }

  /**
   * When the program's distance `d` is known (d >= 0 and d*d is the squared
   * distance), the disk test is exactly `d <= r`.
   */
  lemma InDiskByDistance(q: Point, c: Point, r: real, d: real)
    requires 0.0 <= d && d * d == SqDist(q, c)
    ensures InDisk(q, c, r) <==> 0.0 <= r && d <= r
  {
    if 0.0 <= r {
      SquareMonotone(d, r);
    }
  }

  /** The vertical offset of a point in a disk is at most the radius. */
  lemma InDiskBoundsY(q: Point, c: Point, r: real)
    requires InDisk(q, c, r)
    ensures c.y - r <= q.y <= c.y + r
  {
    var dy := q.y - c.y;
    var a := if dy >= 0.0 then dy else -dy;
    assert a * a == dy * dy;
    assert dy * dy <= SqDist(q, c);
    SquareMonotone(a, r);
  }
}

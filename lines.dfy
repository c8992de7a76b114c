/** The two segment tests: a segment against a circle, by the point of the
    segment's line nearest the circle's center, and a segment against an
    axis-aligned rectangle, by a slab raycast.

    The raylib primitives the tests end in (`CheckCollisionPointCircle`,
    `CheckCollisionPointRec`) are not visible to the model; they are the
    parameters `pointInCircle` and `pointInRec`, about which nothing is
    assumed. The square root inside `Vector2Normalize` is replaced by the
    parameter `len`, which must be the length of the vector normalised. */
module Lines {
  import opened Geometry

  /** The point at parameter u along the segment from p1 to p2. */
  function PointAt(p1: Vector2, p2: Vector2, u: real): Vector2
  {
    Add(p1, Scale(Subtract(p2, p1), u))
  }

  /** l is a product of two factors of the same strict sign. */
  lemma ProductPositive(l: real, a: real, b: real)
    requires l == a * b
    requires (a > 0.0 && b > 0.0) || (a < 0.0 && b < 0.0)
    ensures l > 0.0
  {
  }

  /** l is a product of two factors of the same sign. */
  lemma ProductNonnegative(l: real, a: real, b: real)
    requires l == a * b
    requires (a >= 0.0 && b >= 0.0) || (a <= 0.0 && b <= 0.0)
    ensures l >= 0.0
  {
  }

  /** A vector other than zero has a positive squared length. */
  lemma LengthSqrPositive(v: Vector2)
    requires v != Vector2(0.0, 0.0)
    ensures LengthSqr(v) > 0.0
  {
    var l := LengthSqr(v);
    if v.x != 0.0 {
      ProductPositive(l - v.y * v.y, v.x, v.x);
      ProductNonnegative(l - v.x * v.x, v.y, v.y);
    } else {
      ProductPositive(l - v.x * v.x, v.y, v.y);
    }
  }

  /** The parameter of the point of line p1p2 nearest center: the projection
      of center - p1 on p2 - p1, divided by the squared length of p2 - p1. */
  function ClosestParameter(p1: Vector2, p2: Vector2, center: Vector2): (t: real)
    requires p1 != p2
    ensures t * LengthSqr(Subtract(p2, p1)) == Dot(Subtract(center, p1), Subtract(p2, p1))
  {
    var ab := Subtract(p2, p1);
    assert LengthSqr(ab) > 0.0 by {
      assert ab != Vector2(0.0, 0.0);
      LengthSqrPositive(ab);
    }
    Dot(Subtract(center, p1), ab) / Dot(ab, ab)
  }

  /** CheckCollisionLineCircle: when the nearest point of the line lies
      outside the segment the answer is no collision; otherwise it is the
      point-in-circle test of that nearest point. */
  function CheckCollisionLineCircle(p1: Vector2, p2: Vector2, center: Vector2, radius: real,
                                    pointInCircle: (Vector2, Vector2, real) -> bool): (hit: bool)
    requires p1 != p2
    ensures var t := ClosestParameter(p1, p2, center);
      && (t < 0.0 || t > 1.0 ==> !hit)
      && (0.0 <= t <= 1.0 ==> hit == pointInCircle(PointAt(p1, p2, t), center, radius))
  {
    var ab := Subtract(p2, p1);
    var t := ClosestParameter(p1, p2, center);
    if t < 0.0 || t > 1.0 then
      false
    else
      var closestPoint := Add(p1, Scale(ab, t));
      pointInCircle(closestPoint, center, radius)
  }

  /** Moving by k times a away from w changes the squared length by the
      cross term and the square term. */
  lemma LengthSqrOfShift(w: Vector2, a: Vector2, k: real)
    ensures LengthSqr(Subtract(w, Scale(a, k))) == LengthSqr(w) - 2.0 * k * Dot(w, a) + k * k * LengthSqr(a)
  {
  }

  /** The offset from the point at s to center is the offset from the point
      at t, moved back by s - t segment lengths. */
  lemma OffsetFromPointAt(p1: Vector2, p2: Vector2, center: Vector2, s: real, t: real)
    ensures Subtract(center, PointAt(p1, p2, s))
         == Subtract(Subtract(center, PointAt(p1, p2, t)), Scale(Subtract(p2, p1), s - t))
  {
  }

  /** At a parameter t solving the projection equation, the offset from the
      point at t to center is orthogonal to the segment. */
  lemma OrthogonalAtParameter(p1: Vector2, p2: Vector2, center: Vector2, t: real)
    requires t * LengthSqr(Subtract(p2, p1)) == Dot(Subtract(center, p1), Subtract(p2, p1))
    ensures Dot(Subtract(center, PointAt(p1, p2, t)), Subtract(p2, p1)) == 0.0
  {
    var ab := Subtract(p2, p1);
    var w := Subtract(center, p1);
    assert Subtract(center, PointAt(p1, p2, t)) == Subtract(w, Scale(ab, t));
    assert Dot(Subtract(w, Scale(ab, t)), ab) == Dot(w, ab) - t * LengthSqr(ab);
  }

  /** The offset from the nearest point to center is orthogonal to the segment. */
  lemma ClosestPointIsOrthogonal(p1: Vector2, p2: Vector2, center: Vector2)
    requires p1 != p2
    ensures Dot(Subtract(center, PointAt(p1, p2, ClosestParameter(p1, p2, center))), Subtract(p2, p1)) == 0.0
  {
    OrthogonalAtParameter(p1, p2, center, ClosestParameter(p1, p2, center));
  }

  /** Squared lengths are never negative. */
  lemma LengthSqrNonnegative(v: Vector2)
    ensures LengthSqr(v) >= 0.0
  {
    var l := LengthSqr(v);
    ProductNonnegative(l - v.y * v.y, v.x, v.x);
    ProductNonnegative(l - v.x * v.x, v.y, v.y);
  }

  /** Pythagoras: moving from w by k times a direction orthogonal to it adds
      k² times the direction's squared length. */
  lemma OrthogonalShift(w: Vector2, a: Vector2, k: real)
    requires Dot(w, a) == 0.0
    ensures LengthSqr(Subtract(w, Scale(a, k))) == LengthSqr(w) + k * k * LengthSqr(a)
  {
    LengthSqrOfShift(w, a, k);
    DropZeroTerm(LengthSqr(Subtract(w, Scale(a, k))), LengthSqr(w), k, Dot(w, a), k * k * LengthSqr(a));
  }

  /** A cross term with a zero factor vanishes. */
  lemma DropZeroTerm(x: real, base: real, k: real, d: real, rest: real)
    requires x == base - 2.0 * k * d + rest && d == 0.0
    ensures x == base + rest
  {
  }

  /** Pythagoras: moving from w along a direction orthogonal to it, the
      farther move (in square) gives the longer vector. */
  lemma OrthogonalShiftMonotone(w: Vector2, a: Vector2, k1: real, k2: real)
    requires Dot(w, a) == 0.0
    requires k1 * k1 >= k2 * k2
    ensures LengthSqr(Subtract(w, Scale(a, k1))) >= LengthSqr(Subtract(w, Scale(a, k2)))
  {
    OrthogonalShiftDifference(w, a, k1, k2);
    LengthSqrNonnegative(a);
    ProductNonnegative((k1 * k1 - k2 * k2) * LengthSqr(a), k1 * k1 - k2 * k2, LengthSqr(a));
  }

  /** Two orthogonal moves from w differ in squared length by the difference
      of their squared factors, in squared lengths of the direction. */
  lemma OrthogonalShiftDifference(w: Vector2, a: Vector2, k1: real, k2: real)
    requires Dot(w, a) == 0.0
    ensures LengthSqr(Subtract(w, Scale(a, k1))) - LengthSqr(Subtract(w, Scale(a, k2)))
         == (k1 * k1 - k2 * k2) * LengthSqr(a)
  {
    OrthogonalShift(w, a, k1);
    OrthogonalShift(w, a, k2);
  }

  /** Along the line, a parameter nearer (in square) to the orthogonal
      parameter t gives a point nearer to center. */
  lemma NearerParameterIsNearer(p1: Vector2, p2: Vector2, center: Vector2, t: real, s: real, u: real)
    requires t * LengthSqr(Subtract(p2, p1)) == Dot(Subtract(center, p1), Subtract(p2, p1))
    requires (s - t) * (s - t) >= (u - t) * (u - t)
    ensures LengthSqr(Subtract(center, PointAt(p1, p2, s))) >= LengthSqr(Subtract(center, PointAt(p1, p2, u)))
  {
    var w := Subtract(center, PointAt(p1, p2, t));
    OrthogonalAtParameter(p1, p2, center, t);
    OffsetFromPointAt(p1, p2, center, s, t);
    OffsetFromPointAt(p1, p2, center, u, t);
    OrthogonalShiftMonotone(w, Subtract(p2, p1), s - t, u - t);
  }

  /** The point the circle test examines is the point of the whole line
      nearest the circle's center. */
  lemma ClosestPointIsNearest(p1: Vector2, p2: Vector2, center: Vector2, s: real)
    requires p1 != p2
    ensures LengthSqr(Subtract(center, PointAt(p1, p2, s)))
         >= LengthSqr(Subtract(center, PointAt(p1, p2, ClosestParameter(p1, p2, center))))
  {
    var t := ClosestParameter(p1, p2, center);
    ProductNonnegative((s - t) * (s - t), s - t, s - t);
    NearerParameterIsNearer(p1, p2, center, t, s, t);
  }

  /** Between endpoints of the same interval, scaling keeps the order. */
  lemma ScaleBetween(d: real, u: real)
    requires 0.0 <= u <= 1.0
    ensures Between(d * u, 0.0, d)
  {
    if d >= 0.0 {
      assert d * u <= d * 1.0;
    } else {
      assert d * u >= d * 1.0;
    }
  }

  /** Points at parameters in [0, 1] lie on the segment: each coordinate is
      between the endpoints' coordinates. */
  lemma PointAtOnSegment(p1: Vector2, p2: Vector2, u: real)
    requires 0.0 <= u <= 1.0
    ensures Between(PointAt(p1, p2, u).x, p1.x, p2.x) && Between(PointAt(p1, p2, u).y, p1.y, p2.y)
  {
    ScaleBetween(p2.x - p1.x, u);
    ScaleBetween(p2.y - p1.y, u);
  }

  /** A reading of the point-in-circle primitive used only to exhibit the
      behaviour of the circle test at the segment's ends: the closed disc. */
  predicate InDisc(p: Vector2, center: Vector2, radius: real)
  {
    LengthSqr(Subtract(p, center)) <= radius * radius
  }

  /** A segment whose start lies inside the circle, but whose line's nearest
      point lies before that start, is reported as not colliding: the segment
      from (0, 0) to (10, 0) against the circle of radius 5 about (-1, 0). */
  lemma LineCircleMissesInsideEndpoint(p1: Vector2, p2: Vector2, center: Vector2, radius: real)
    requires p1 == Vector2(0.0, 0.0) && p2 == Vector2(10.0, 0.0)
    requires center == Vector2(-1.0, 0.0) && radius == 5.0
    ensures InDisc(p1, center, radius)
    ensures !CheckCollisionLineCircle(p1, p2, center, radius, InDisc)
  {
    var t := ClosestParameter(p1, p2, center);
    assert LengthSqr(Subtract(p2, p1)) == 100.0;
    assert Dot(Subtract(center, p1), Subtract(p2, p1)) == -10.0;
    assert t * 100.0 == -10.0;
  }

  /** The segment from (0, 0) to (10, 0) touches the circle of radius 5
      about (5, 5) at its nearest point (5, 0), which the disc includes. */
  lemma LineCircleTouchesAtRadius(p1: Vector2, p2: Vector2, center: Vector2, radius: real)
    requires p1 == Vector2(0.0, 0.0) && p2 == Vector2(10.0, 0.0)
    requires center == Vector2(5.0, 5.0) && radius == 5.0
    ensures ClosestParameter(p1, p2, center) == 0.5
    ensures CheckCollisionLineCircle(p1, p2, center, radius, InDisc)
  {
    var t := ClosestParameter(p1, p2, center);
    assert LengthSqr(Subtract(p2, p1)) == 100.0;
    assert Dot(Subtract(center, p1), Subtract(p2, p1)) == 50.0;
    assert t * 100.0 == 50.0;
    assert PointAt(p1, p2, t) == Vector2(5.0, 0.0);
  }

  /** Against the circle of radius 5 about (5, 6) the nearest point (5, 0) is
      at distance 6, and the segment is reported as not colliding. */
  lemma LineCircleMissesBeyondRadius(p1: Vector2, p2: Vector2, center: Vector2, radius: real)
    requires p1 == Vector2(0.0, 0.0) && p2 == Vector2(10.0, 0.0)
    requires center == Vector2(5.0, 6.0) && radius == 5.0
    ensures ClosestParameter(p1, p2, center) == 0.5
    ensures !CheckCollisionLineCircle(p1, p2, center, radius, InDisc)
  {
    var t := ClosestParameter(p1, p2, center);
    assert LengthSqr(Subtract(p2, p1)) == 100.0;
    assert Dot(Subtract(center, p1), Subtract(p2, p1)) == 50.0;
    assert t * 100.0 == 50.0;
    assert PointAt(p1, p2, t) == Vector2(5.0, 0.0);
  }

  /** The nearest value to t in [0, 1]. */
  function Clamp(t: real): (u: real)
    ensures 0.0 <= u <= 1.0
    ensures 0.0 <= t <= 1.0 ==> u == t
  {
    if t < 0.0 then 0.0 else if t > 1.0 then 1.0 else t
  }

  /** The circle test with the nearest-point parameter clamped to the
      segment, so that a nearest point beyond an end is replaced by that end. */
  function CheckCollisionSegmentCircle(p1: Vector2, p2: Vector2, center: Vector2, radius: real,
                                       pointInCircle: (Vector2, Vector2, real) -> bool): (hit: bool)
    requires p1 != p2
    ensures var t := ClosestParameter(p1, p2, center);
      0.0 <= t <= 1.0 ==> hit == CheckCollisionLineCircle(p1, p2, center, radius, pointInCircle)
  {
    pointInCircle(PointAt(p1, p2, Clamp(ClosestParameter(p1, p2, center))), center, radius)
  }

  /** Among parameters in [0, 1], the clamped one is nearest t. */
  lemma ClampIsNearest(t: real, s: real)
    requires 0.0 <= s <= 1.0
    ensures (s - t) * (s - t) >= (Clamp(t) - t) * (Clamp(t) - t)
  {
    var u := Clamp(t);
    if t < 0.0 {
      SquareMonotone(s - t, u - t);
    } else if t > 1.0 {
      SquareMonotone(t - s, t - u);
    }
  }

  /** Squaring keeps the order of non-negative values. */
  lemma SquareMonotone(a: real, b: real)
    requires a >= b >= 0.0
    ensures a * a >= b * b
  {
    MulMonotone(a, b, a);
    MulMonotone(a, b, b);
  }

  /** Multiplying by a non-negative factor keeps the order. */
  lemma MulMonotone(a: real, b: real, l: real)
    requires a >= b && l >= 0.0
    ensures a * l >= b * l
  {
    assert a * l - b * l == (a - b) * l;
  }

  /** The clamped parameter gives the point of the segment nearest center. */
  lemma ClampedPointIsNearestOnSegment(p1: Vector2, p2: Vector2, center: Vector2, s: real)
    requires p1 != p2
    requires 0.0 <= s <= 1.0
    ensures LengthSqr(Subtract(center, PointAt(p1, p2, s)))
         >= LengthSqr(Subtract(center, PointAt(p1, p2, Clamp(ClosestParameter(p1, p2, center)))))
  {
    var t := ClosestParameter(p1, p2, center);
    ClampIsNearest(t, s);
    NearerParameterIsNearer(p1, p2, center, t, s, Clamp(t));
  }

  /** With the disc reading of the primitive, the clamped test reports every
      segment that has a point in the disc, the inside endpoint included. */
  lemma SegmentCircleFindsEveryContact(p1: Vector2, p2: Vector2, center: Vector2, radius: real, s: real)
    requires p1 != p2
    requires 0.0 <= s <= 1.0
    requires InDisc(PointAt(p1, p2, s), center, radius)
    ensures CheckCollisionSegmentCircle(p1, p2, center, radius, InDisc)
  {
    var q := PointAt(p1, p2, Clamp(ClosestParameter(p1, p2, center)));
    ClampedPointIsNearestOnSegment(p1, p2, center, s);
    assert LengthSqr(Subtract(q, center)) == LengthSqr(Subtract(center, q));
    assert LengthSqr(Subtract(PointAt(p1, p2, s), center)) == LengthSqr(Subtract(center, PointAt(p1, p2, s)));
  }

  // --- The slab raycast ---

  /** The degeneracy nudge: a coordinate of p1 equal to p2's is moved by 0.001,
      so that afterwards neither coordinate of the direction is zero. */
  function Nudge(p1: Vector2, p2: Vector2): (q: Vector2)
    ensures q.x != p2.x && q.y != p2.y
    ensures q.x == p1.x || q.x == p1.x + 0.001
    ensures q.y == p1.y || q.y == p1.y + 0.001
    ensures p1.x != p2.x ==> q.x == p1.x
    ensures p1.y != p2.y ==> q.y == p1.y
  {
    Vector2(if p1.x == p2.x then p1.x + 0.001 else p1.x, if p1.y == p2.y then p1.y + 0.001 else p1.y)
  }

  /** The entry and exit distances of the ray across both slabs. */
  datatype SlabTimes = SlabTimes(tmin: real, tmax: real)

  function Reciprocal(v: real): real { if v != 0.0 then 1.0 / v else 0.0 }

  /** The unit direction from q to p2, with len standing for the length. */
  function Direction(q: Vector2, p2: Vector2, len: real): Vector2
    requires len > 0.0
  {
    Scale(Subtract(p2, q), 1.0 / len)
  }

  /** The distances along dir from q at which the ray crosses the x and y
      lines through rec's pivot corner. */
  function NearCrossing(q: Vector2, dir: Vector2, rec: Rectangle): Vector2
  {
    Multiply(Subtract(Vector2(rec.x, rec.y), q), Vector2(Reciprocal(dir.x), Reciprocal(dir.y)))
  }

  /** The distances along dir from q at which the ray crosses the x and y
      lines through rec's opposite corner. */
  function FarCrossing(q: Vector2, dir: Vector2, rec: Rectangle): Vector2
  {
    Multiply(Subtract(Vector2(rec.x + rec.width, rec.y + rec.height), q),
             Vector2(Reciprocal(dir.x), Reciprocal(dir.y)))
  }

  /** The latest entry into and the earliest exit from the two slabs. */
  function SlabIntersection(near: Vector2, far: Vector2): SlabTimes
  {
    SlabTimes(Max(Min(near.x, far.x), Min(near.y, far.y)), Min(Max(near.x, far.x), Max(near.y, far.y)))
  }

  /** The entry and exit distances along dir from q across rec's slabs. */
  function Slabs(q: Vector2, dir: Vector2, rec: Rectangle): SlabTimes
  {
    SlabIntersection(NearCrossing(q, dir, rec), FarCrossing(q, dir, rec))
  }

  /** The distance tested: the entry, or the exit when the entry is behind q. */
  function ChosenTime(ts: SlabTimes): real { if ts.tmin < 0.0 then ts.tmax else ts.tmin }

  /** A distance t along the ray from q lies strictly between q and the end
      of the segment, whose squared length is LengthSqr(d). */
  predicate WithinSegment(t: real, d: Vector2) { t > 0.0 && t * t < LengthSqr(d) }

  /** The length standing in for the square root is that of the nudged segment. */
  predicate IsNudgedLength(p1: Vector2, p2: Vector2, len: real)
  {
    len > 0.0 && len * len == LengthSqr(Subtract(p2, Nudge(p1, p2)))
  }

  /** The slab verdict for the nudged start q: the slabs' common part is not
      empty and not wholly behind q, and the chosen distance lies strictly
      between q and p2. */
  predicate SlabHit(q: Vector2, p2: Vector2, rec: Rectangle, len: real): (hit: bool)
    requires len > 0.0
    ensures var ts := Slabs(q, Direction(q, p2, len), rec);
      hit ==> 0.0 < ChosenTime(ts) && ts.tmin <= ChosenTime(ts) <= ts.tmax
  {
    var ts := Slabs(q, Direction(q, p2, len), rec);
    if ts.tmax < 0.0 || ts.tmin > ts.tmax then
      false
    else
      WithinSegment(ChosenTime(ts), Subtract(p2, q))
  }

  /** What CheckCollisionLineRec computes: an endpoint inside rec is a hit;
      otherwise the slab verdict from the nudged start. */
  predicate LineRecHits(p1: Vector2, p2: Vector2, rec: Rectangle, len: real,
                        pointInRec: (Vector2, Rectangle) -> bool): (hit: bool)
    requires IsNudgedLength(p1, p2, len)
    ensures pointInRec(p1, rec) ==> hit
    ensures pointInRec(p2, rec) ==> hit
  {
    pointInRec(p1, rec) || pointInRec(p2, rec) || SlabHit(Nudge(p1, p2), p2, rec, len)
  }

  /** CheckCollisionLineRec: the endpoint early accept, the nudge of p1, the
      reciprocal of the normalised direction, the slab distances and the final
      comparison, step by step. */
  method CheckCollisionLineRec(p1: Vector2, p2: Vector2, rec: Rectangle, len: real,
                               pointInRec: (Vector2, Rectangle) -> bool)
    returns (hit: bool)
    requires IsNudgedLength(p1, p2, len)
    ensures hit == LineRecHits(p1, p2, rec, len, pointInRec)
    ensures pointInRec(p1, rec) || pointInRec(p2, rec) ==> hit
  {
    if pointInRec(p1, rec) || pointInRec(p2, rec) {
      return true;
    }

    var start := p1;
    start := start.(x := if start.x == p2.x then start.x + 0.001 else start.x);
    start := start.(y := if start.y == p2.y then start.y + 0.001 else start.y);
    assert start == Nudge(p1, p2);

    var norm := Scale(Subtract(p2, start), 1.0 / len);
    norm := norm.(x := if norm.x != 0.0 then 1.0 / norm.x else 0.0);
    norm := norm.(y := if norm.y != 0.0 then 1.0 / norm.y else 0.0);
    ghost var dir := Direction(start, p2, len);
    assert norm == Vector2(Reciprocal(dir.x), Reciprocal(dir.y));

    var min := Vector2(rec.x, rec.y);
    min := Multiply(Subtract(min, start), norm);
    var max := Vector2(rec.x + rec.width, rec.y + rec.height);
    max := Multiply(Subtract(max, start), norm);

    var tmin := Max(Min(min.x, max.x), Min(min.y, max.y));
    var tmax := Min(Max(min.x, max.x), Max(min.y, max.y));
    assert Slabs(start, dir, rec) == SlabTimes(tmin, tmax);

    if tmax < 0.0 || tmin > tmax {
      assert !SlabHit(start, p2, rec, len);
      return false;
    }

    var t := if tmin < 0.0 then tmax else tmin;
    hit := WithinSegment(t, Subtract(p2, start));
  }

  /** A false verdict past the early accept has one of the source's two
      reasons: the slabs' common part is empty or behind the start, or the
      chosen distance is not strictly between the start and p2. */
  lemma LineRecMissReasons(p1: Vector2, p2: Vector2, rec: Rectangle, len: real,
                           pointInRec: (Vector2, Rectangle) -> bool)
    requires IsNudgedLength(p1, p2, len)
    requires !LineRecHits(p1, p2, rec, len, pointInRec)
    ensures !pointInRec(p1, rec) && !pointInRec(p2, rec)
    ensures var q := Nudge(p1, p2);
      var ts := Slabs(q, Direction(q, p2, len), rec);
      || ts.tmax < 0.0 || ts.tmin > ts.tmax
      || !WithinSegment(ChosenTime(ts), Subtract(p2, q))
  {
  }

  /** The box spanned by rec, in either orientation of its sides. */
  predicate InBox(p: Vector2, rec: Rectangle)
  {
    Between(p.x, rec.x, rec.x + rec.width) && Between(p.y, rec.y, rec.y + rec.height)
  }

  /** Scaling by k keeps a value between the scaled ends. */
  lemma ScaleKeepsBetween(k: real, t: real, a: real, b: real)
    requires Between(t, a, b)
    ensures Between(k * t, k * a, k * b)
  {
    var lo, hi := Min(a, b), Max(a, b);
    assert lo <= t <= hi;
    assert {a, b} == {lo, hi};
    if k >= 0.0 {
      MulMonotone(t, lo, k);
      MulMonotone(hi, t, k);
      assert k * lo <= k * t <= k * hi;
    } else {
      MulMonotone(t, lo, -k);
      MulMonotone(hi, t, -k);
      assert k * hi <= k * t <= k * lo;
    }
  }

  /** If t lies between the slab distances of one coordinate, the ray's
      coordinate at t lies between that slab's boundaries. */
  lemma SlabCoordinate(qc: real, dc: real, lo: real, hi: real, a: real, b: real, t: real, pc: real)
    requires dc * a == lo - qc && dc * b == hi - qc
    requires Between(t, a, b) && pc == qc + dc * t
    ensures Between(pc, lo, hi)
  {
    ScaleKeepsBetween(dc, t, a, b);
  }

  /** The chosen distance of a non-empty slab intersection lies in both slabs. */
  lemma ChosenTimeInSlabs(near: Vector2, far: Vector2)
    requires SlabIntersection(near, far).tmin <= SlabIntersection(near, far).tmax
    ensures var t := ChosenTime(SlabIntersection(near, far));
      Between(t, near.x, far.x) && Between(t, near.y, far.y)
  {
  }

  /** A distance strictly within a segment of length len is below len. */
  lemma BelowLength(t: real, d: Vector2, len: real)
    requires WithinSegment(t, d) && len > 0.0 && len * len == LengthSqr(d)
    ensures t < len
  {
    assert t * t < len * len;
  }

  /** Neither coordinate of the direction is zero once q and p2 differ in both. */
  lemma DirectionNonzero(q: Vector2, p2: Vector2, len: real)
    requires q.x != p2.x && q.y != p2.y && len > 0.0
    ensures Direction(q, p2, len).x != 0.0 && Direction(q, p2, len).y != 0.0
  {
    var k := 1.0 / len;
    assert k > 0.0;
    var dir := Direction(q, p2, len);
    assert dir.x / k == p2.x - q.x;
    assert dir.y / k == p2.y - q.y;
  }

  /** Walking distance t along the unit direction is walking the fraction
      t / len of the segment. */
  lemma DistanceIsFraction(q: Vector2, p2: Vector2, len: real, t: real, k: real)
    requires len > 0.0 && k == 1.0 / len
    ensures PointAt(q, p2, t * k) == Add(q, Scale(Direction(q, p2, len), t))
  {
  }

  /** A distance strictly between 0 and len is a fraction strictly between 0
      and 1 of it; k is the reciprocal of len. */
  lemma FractionOfLength(t: real, len: real, k: real)
    requires 0.0 < t < len && len * k == 1.0
    ensures 0.0 < t * k < 1.0
  {
    assert k > 0.0;
    ProductPositive(t * k, t, k);
    ProductPositive((len - t) * k, len - t, k);
    assert (len - t) * k == len * k - t * k;
  }

  /** The point at distance t strictly between 0 and len along the unit
      direction is a point strictly inside the segment. */
  lemma InsideSegment(q: Vector2, p2: Vector2, len: real, t: real)
    requires 0.0 < t < len
    ensures exists u :: 0.0 < u < 1.0 && PointAt(q, p2, u) == Add(q, Scale(Direction(q, p2, len), t))
  {
    var k := 1.0 / len;
    FractionOfLength(t, len, k);
    DistanceIsFraction(q, p2, len, t, k);
  }

  /** Along a direction with no zero coordinate, walking the crossing
      distance reaches the crossed line. */
  lemma CrossingsReachBoundaries(q: Vector2, dir: Vector2, rec: Rectangle)
    requires dir.x != 0.0 && dir.y != 0.0
    ensures var near, far := NearCrossing(q, dir, rec), FarCrossing(q, dir, rec);
      && dir.x * near.x == rec.x - q.x && dir.x * far.x == rec.x + rec.width - q.x
      && dir.y * near.y == rec.y - q.y && dir.y * far.y == rec.y + rec.height - q.y
  {
  }

  /** A distance between the crossing distances of both coordinates puts the
      ray's point in the box. */
  lemma RayPointInBox(q: Vector2, dir: Vector2, rec: Rectangle, near: Vector2, far: Vector2, t: real)
    requires dir.x * near.x == rec.x - q.x && dir.x * far.x == rec.x + rec.width - q.x
    requires dir.y * near.y == rec.y - q.y && dir.y * far.y == rec.y + rec.height - q.y
    requires Between(t, near.x, far.x) && Between(t, near.y, far.y)
    ensures InBox(Add(q, Scale(dir, t)), rec)
  {
    var p := Add(q, Scale(dir, t));
    SlabCoordinate(q.x, dir.x, rec.x, rec.x + rec.width, near.x, far.x, t, p.x);
    SlabCoordinate(q.y, dir.y, rec.y, rec.y + rec.height, near.y, far.y, t, p.y);
  }

  /** Along a direction with no zero coordinate, the distance chosen from a
      non-empty slab intersection lands in the box. */
  lemma SlabPointInBox(q: Vector2, dir: Vector2, rec: Rectangle)
    requires dir.x != 0.0 && dir.y != 0.0
    requires Slabs(q, dir, rec).tmin <= Slabs(q, dir, rec).tmax
    ensures InBox(Add(q, Scale(dir, ChosenTime(Slabs(q, dir, rec)))), rec)
  {
    var near, far := NearCrossing(q, dir, rec), FarCrossing(q, dir, rec);
    ChosenTimeInSlabs(near, far);
    CrossingsReachBoundaries(q, dir, rec);
    RayPointInBox(q, dir, rec, near, far, ChosenTime(SlabIntersection(near, far)));
  }

  /** The distance a slab hit chooses lies strictly between 0 and len, and
      walking it along the direction lands in the box. */
  lemma SlabHitChoosesInside(q: Vector2, p2: Vector2, rec: Rectangle, len: real)
    requires q.x != p2.x && q.y != p2.y
    requires len > 0.0 && len * len == LengthSqr(Subtract(p2, q))
    requires SlabHit(q, p2, rec, len)
    ensures var dir := Direction(q, p2, len);
      var t := ChosenTime(Slabs(q, dir, rec));
      0.0 < t < len && InBox(Add(q, Scale(dir, t)), rec)
  {
    var dir := Direction(q, p2, len);
    var near, far := NearCrossing(q, dir, rec), FarCrossing(q, dir, rec);
    var t := ChosenTime(SlabIntersection(near, far));
    assert WithinSegment(t, Subtract(p2, q));
    assert t < len by {
      BelowLength(t, Subtract(p2, q), len);
    }
    DirectionNonzero(q, p2, len);
    SlabPointInBox(q, dir, rec);
  }

  /** The slab verdict alone misses a segment lying wholly inside the box:
      for (4, 5)-(7, 9) in the box (0, 0, 10, 10) the entry is behind p1, so
      the exit distance 6.25 is chosen, which lies past the end at length 5.
      Only the endpoint early accept reports such a segment. */
  lemma SlabMissesContainedSegment(p1: Vector2, p2: Vector2, rec: Rectangle, len: real)
    requires p1 == Vector2(4.0, 5.0) && p2 == Vector2(7.0, 9.0)
    requires rec == Rectangle(0.0, 0.0, 10.0, 10.0) && len == 5.0
    ensures IsNudgedLength(p1, p2, len)
    ensures InBox(p1, rec) && InBox(p2, rec) && InBox(PointAt(p1, p2, 0.5), rec)
    ensures !SlabHit(Nudge(p1, p2), p2, rec, len)
    ensures !LineRecHits(p1, p2, rec, len, (p: Vector2, r: Rectangle) => false)
  {
  }

  /** Soundness of the slab verdict: a hit past the early accept means the
      nudged segment, beyond its start, meets the box spanned by rec. */
  lemma SlabHitMeetsBox(q: Vector2, p2: Vector2, rec: Rectangle, len: real)
    requires q.x != p2.x && q.y != p2.y
    requires len > 0.0 && len * len == LengthSqr(Subtract(p2, q))
    requires SlabHit(q, p2, rec, len)
    ensures exists u :: 0.0 < u < 1.0 && InBox(PointAt(q, p2, u), rec)
  {
    var dir := Direction(q, p2, len);
    var t := ChosenTime(Slabs(q, dir, rec));
    SlabHitChoosesInside(q, p2, rec, len);
    InsideSegment(q, p2, len, t);
    var u :| 0.0 < u < 1.0 && PointAt(q, p2, u) == Add(q, Scale(dir, t));
    assert InBox(PointAt(q, p2, u), rec);
  }

  /** Soundness of CheckCollisionLineRec: a hit means an endpoint is inside
      rec, or the segment from the nudged start to p2 meets rec's box. */
  lemma LineRecHitIsContact(p1: Vector2, p2: Vector2, rec: Rectangle, len: real,
                            pointInRec: (Vector2, Rectangle) -> bool)
    requires IsNudgedLength(p1, p2, len)
    requires LineRecHits(p1, p2, rec, len, pointInRec)
    ensures || pointInRec(p1, rec) || pointInRec(p2, rec)
            || exists u :: 0.0 < u < 1.0 && InBox(PointAt(Nudge(p1, p2), p2, u), rec)
  {
    if !pointInRec(p1, rec) && !pointInRec(p2, rec) {
      SlabHitMeetsBox(Nudge(p1, p2), p2, rec, len);
    }
  }
}

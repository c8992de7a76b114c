/** The separating-axis test between an axis-aligned rectangle and a rotated
    one, and the reduction of two rotated rectangles to that case.

    The test projects both rectangles on four candidate axes and reports a
    collision when the projections overlap on all of them. The candidates are
    the world axes and the rotated rectangle's local axes, which the source
    builds as the normalised vectors (rec2.x, 0) and (0, rec2.y) rotated by
    rotation2; they therefore depend on the signs of rec2's pivot coordinates,
    and this model keeps that. */
module Sat {
  import opened Geometry
  import opened Frame
  import opened Projection

  /** Closed intervals overlap; touching ends count. */
  predicate Overlaps(a: Interval2, b: Interval2) { b.min <= a.max && a.min <= b.max }

  /** For proper intervals, overlapping means sharing a value. */
  lemma OverlapsIffCommonValue(a: Interval2, b: Interval2)
    requires a.min <= a.max && b.min <= b.max
    ensures Overlaps(a, b) <==> exists v :: Contains(a, v) && Contains(b, v)
  {
    if Overlaps(a, b) {
      var v := Max(a.min, b.min);
      assert Contains(a, v) && Contains(b, v);
    }
  }

  /** The projections of rec1, and of rec2 rotated by rotation2, overlap on axis. */
  predicate AxisOverlap(rec1: Rectangle, rec2: Rectangle, rotation2: Rotation, axis: Vector2)
  {
    Overlaps(Interval(rec1, axis), OrientedInterval(rec2, rotation2, axis))
  }

  /** axis strictly separates two vertex sets: every projection of one set lies
      below every projection of the other. */
  predicate Separates(axis: Vector2, us: seq<Vector2>, vs: seq<Vector2>)
  {
    (forall i, j :: 0 <= i < |us| && 0 <= j < |vs| ==> Dot(axis, us[i]) < Dot(axis, vs[j])) ||
    (forall i, j :: 0 <= i < |us| && 0 <= j < |vs| ==> Dot(axis, vs[j]) < Dot(axis, us[i]))
  }

  /** The overlap comparison on one axis holds exactly when that axis does not
      strictly separate the two rectangles' vertices. */
  lemma OverlapIffNotSeparated(rec1: Rectangle, rec2: Rectangle, rotation2: Rotation, axis: Vector2)
    ensures AxisOverlap(rec1, rec2, rotation2, axis)
        <==> !Separates(axis, Corners(rec1), OrientedCorners(rec2, rotation2))
  {
    var us, vs := Corners(rec1), OrientedCorners(rec2, rotation2);
    var ps, qs := Projections(axis, us), Projections(axis, vs);
    HullIsTight(ps);
    HullIsTight(qs);
    var a, b := Hull(ps), Hull(qs);
    var aMin :| 0 <= aMin < 4 && a.min == ps[aMin];
    var aMax :| 0 <= aMax < 4 && a.max == ps[aMax];
    var bMin :| 0 <= bMin < 4 && b.min == qs[bMin];
    var bMax :| 0 <= bMax < 4 && b.max == qs[bMax];
    if Overlaps(a, b) {
      assert !(Dot(axis, us[aMax]) < Dot(axis, vs[bMin]));
      assert !(Dot(axis, vs[bMax]) < Dot(axis, us[aMin]));
    } else if a.max < b.min {
      forall i, j | 0 <= i < 4 && 0 <= j < 4
        ensures Dot(axis, us[i]) < Dot(axis, vs[j])
      {
        assert Contains(a, ps[i]) && Contains(b, qs[j]);
      }
    } else {
      forall i, j | 0 <= i < 4 && 0 <= j < 4
        ensures Dot(axis, vs[j]) < Dot(axis, us[i])
      {
        assert Contains(a, ps[i]) && Contains(b, qs[j]);
      }
    }
  }

  /** OverlapOnOrientedAxis: project rec1 and the rotated rec2 on axis and compare. */
  method OverlapOnOrientedAxis(rec1: Rectangle, rec2: Rectangle, rotation2: Rotation, axis: Vector2)
    returns (overlap: bool)
    ensures overlap == AxisOverlap(rec1, rec2, rotation2, axis)
    ensures overlap <==> !Separates(axis, Corners(rec1), OrientedCorners(rec2, rotation2))
  {
    var a := GetInterval(rec1, axis);
    var b := GetOrientedInterval(rec2, rotation2, axis);
    overlap := b.min <= a.max && a.min <= b.max;
    OverlapIffNotSeparated(rec1, rec2, rotation2, axis);
  }

  /** Reversing an axis swaps the two sides of a separation. */
  lemma SeparatesNegated(axis: Vector2, us: seq<Vector2>, vs: seq<Vector2>)
    ensures Separates(Scale(axis, -1.0), us, vs) <==> Separates(axis, us, vs)
  {
    var neg := Scale(axis, -1.0);
    forall v: Vector2
      ensures Dot(neg, v) == -Dot(axis, v)
    {
    }
  }

  /** Reversing an axis does not change the outcome on it. */
  lemma AxisDirectionIrrelevant(rec1: Rectangle, rec2: Rectangle, rotation2: Rotation, axis: Vector2)
    ensures AxisOverlap(rec1, rec2, rotation2, Scale(axis, -1.0)) == AxisOverlap(rec1, rec2, rotation2, axis)
  {
    OverlapIffNotSeparated(rec1, rec2, rotation2, axis);
    OverlapIffNotSeparated(rec1, rec2, rotation2, Scale(axis, -1.0));
    SeparatesNegated(axis, Corners(rec1), OrientedCorners(rec2, rotation2));
  }

  /** The zero vector separates nothing: every projection on it is 0. */
  lemma ZeroAxisOverlaps(rec1: Rectangle, rec2: Rectangle, rotation2: Rotation)
    ensures AxisOverlap(rec1, rec2, rotation2, Vector2(0.0, 0.0))
  {
    var zero := Vector2(0.0, 0.0);
    OverlapIffNotSeparated(rec1, rec2, rotation2, zero);
    var us, vs := Corners(rec1), OrientedCorners(rec2, rotation2);
    assert Dot(zero, us[0]) == 0.0 == Dot(zero, vs[0]);
  }

  /** The magnitude of a coordinate. */
  function Abs(v: real): real { if v < 0.0 then -v else v }

  /** The unit coordinate with v's sign, or 0. */
  function Sign(v: real): real { if v > 0.0 then 1.0 else if v < 0.0 then -1.0 else 0.0 }

  /** Vector2Normalize applied to a vector with a zero coordinate, whose length
      is the other coordinate's magnitude: away from zero the result is one of
      the four unit axis vectors, with the sign of v's non-zero coordinate.
      What normalising the zero vector gives is not visible to the model and
      is the parameter zeroNorm. */
  function NormalizeOnAxis(v: Vector2, zeroNorm: Vector2): (n: Vector2)
    requires v.x == 0.0 || v.y == 0.0
    ensures v.x > 0.0 ==> n == Vector2(1.0, 0.0)
    ensures v.x < 0.0 ==> n == Vector2(-1.0, 0.0)
    ensures v.y > 0.0 ==> n == Vector2(0.0, 1.0)
    ensures v.y < 0.0 ==> n == Vector2(0.0, -1.0)
    ensures v == Vector2(0.0, 0.0) ==> n == zeroNorm
  {
    if v == Vector2(0.0, 0.0) then zeroNorm else Vector2(Sign(v.x), Sign(v.y))
  }

  /** Away from zero the result is the unit vector in v's direction. */
  lemma NormalizeOnAxisIsUnit(v: Vector2, zeroNorm: Vector2)
    requires v.x == 0.0 || v.y == 0.0
    requires v != Vector2(0.0, 0.0)
    ensures LengthSqr(NormalizeOnAxis(v, zeroNorm)) == 1.0
    ensures Scale(NormalizeOnAxis(v, zeroNorm), Abs(v.x) + Abs(v.y)) == v
  {
  }

  /** axisToTest: the world x and y axes, then rec2's local axes as the source builds them. */
  function SatAxes(rec2: Rectangle, rotation2: Rotation, zeroNorm: Vector2): (axes: seq<Vector2>)
    ensures |axes| == 4 && axes[0] == Vector2(1.0, 0.0) && axes[1] == Vector2(0.0, 1.0)
  {
    var rotAxisA := Rotate(NormalizeOnAxis(Vector2(rec2.x, 0.0), zeroNorm), rotation2);
    var rotAxisB := Rotate(NormalizeOnAxis(Vector2(0.0, rec2.y), zeroNorm), rotation2);
    [Vector2(1.0, 0.0), Vector2(0.0, 1.0), rotAxisA, rotAxisB]
  }

  /** The local candidate axes are unit vectors whenever the pivot
      coordinate they are built from is not zero. */
  lemma LocalAxesAreUnit(rec2: Rectangle, rotation2: Rotation, zeroNorm: Vector2)
    requires rotation2.Unit()
    ensures rec2.x != 0.0 ==> LengthSqr(SatAxes(rec2, rotation2, zeroNorm)[2]) == 1.0
    ensures rec2.y != 0.0 ==> LengthSqr(SatAxes(rec2, rotation2, zeroNorm)[3]) == 1.0
  {
    RotatePreservesLength(NormalizeOnAxis(Vector2(rec2.x, 0.0), zeroNorm), rotation2);
    RotatePreservesLength(NormalizeOnAxis(Vector2(0.0, rec2.y), zeroNorm), rotation2);
  }

  /** The separating-axis verdict: the projections overlap on every candidate axis. */
  predicate Collides(rec1: Rectangle, rec2: Rectangle, rotation2: Rotation, zeroNorm: Vector2)
  {
    var axes := SatAxes(rec2, rotation2, zeroNorm);
    && AxisOverlap(rec1, rec2, rotation2, axes[0])
    && AxisOverlap(rec1, rec2, rotation2, axes[1])
    && AxisOverlap(rec1, rec2, rotation2, axes[2])
    && AxisOverlap(rec1, rec2, rotation2, axes[3])
  }

  /** Four named per-axis comparisons are the same as a comparison on every index. */
  lemma FourAxesIffEvery(rec1: Rectangle, rec2: Rectangle, rotation2: Rotation, axes: seq<Vector2>)
    requires |axes| == 4
    ensures (&& AxisOverlap(rec1, rec2, rotation2, axes[0])
             && AxisOverlap(rec1, rec2, rotation2, axes[1])
             && AxisOverlap(rec1, rec2, rotation2, axes[2])
             && AxisOverlap(rec1, rec2, rotation2, axes[3]))
        <==> forall k :: 0 <= k < 4 ==> AxisOverlap(rec1, rec2, rotation2, axes[k])
  {
  }

  /** The verdict holds exactly when every candidate axis shows an overlap. */
  lemma CollidesIffEveryAxis(rec1: Rectangle, rec2: Rectangle, rotation2: Rotation, zeroNorm: Vector2)
    ensures Collides(rec1, rec2, rotation2, zeroNorm) <==>
      forall k :: 0 <= k < 4 ==> AxisOverlap(rec1, rec2, rotation2, SatAxes(rec2, rotation2, zeroNorm)[k])
  {
    FourAxesIffEvery(rec1, rec2, rotation2, SatAxes(rec2, rotation2, zeroNorm));
  }

  /** The source's local axes: the rotated unit axis pointing the way of the
      pivot's coordinate, and the rotated image of zeroNorm when that coordinate is 0. */
  lemma LocalAxes(rec2: Rectangle, rotation2: Rotation, zeroNorm: Vector2)
    ensures var axes, ux, uy := SatAxes(rec2, rotation2, zeroNorm),
                                Rotate(Vector2(1.0, 0.0), rotation2), Rotate(Vector2(0.0, 1.0), rotation2);
      && (rec2.x > 0.0 ==> axes[2] == ux)
      && (rec2.x < 0.0 ==> axes[2] == Scale(ux, -1.0))
      && (rec2.x == 0.0 ==> axes[2] == Rotate(zeroNorm, rotation2))
      && (rec2.y > 0.0 ==> axes[3] == uy)
      && (rec2.y < 0.0 ==> axes[3] == Scale(uy, -1.0))
      && (rec2.y == 0.0 ==> axes[3] == Rotate(zeroNorm, rotation2))
  {
  }

  /** Away from zero, the local x axis decides like rec2's rotated unit x axis. */
  lemma LocalAxisXDecides(rec1: Rectangle, rec2: Rectangle, rotation2: Rotation, zeroNorm: Vector2)
    requires rec2.x != 0.0
    ensures AxisOverlap(rec1, rec2, rotation2, SatAxes(rec2, rotation2, zeroNorm)[2])
        == AxisOverlap(rec1, rec2, rotation2, Rotate(Vector2(1.0, 0.0), rotation2))
  {
    LocalAxes(rec2, rotation2, zeroNorm);
    AxisDirectionIrrelevant(rec1, rec2, rotation2, Rotate(Vector2(1.0, 0.0), rotation2));
  }

  /** Away from zero, the local y axis decides like rec2's rotated unit y axis. */
  lemma LocalAxisYDecides(rec1: Rectangle, rec2: Rectangle, rotation2: Rotation, zeroNorm: Vector2)
    requires rec2.y != 0.0
    ensures AxisOverlap(rec1, rec2, rotation2, SatAxes(rec2, rotation2, zeroNorm)[3])
        == AxisOverlap(rec1, rec2, rotation2, Rotate(Vector2(0.0, 1.0), rotation2))
  {
    LocalAxes(rec2, rotation2, zeroNorm);
    AxisDirectionIrrelevant(rec1, rec2, rotation2, Rotate(Vector2(0.0, 1.0), rotation2));
  }

  /** When neither pivot coordinate of rec2 is zero, the candidate local axes
      are rec2's rotated unit axes up to direction, so the verdict is the
      textbook four-axis test. */
  lemma CollidesOnRotatedUnitAxes(rec1: Rectangle, rec2: Rectangle, rotation2: Rotation, zeroNorm: Vector2)
    requires rec2.x != 0.0 && rec2.y != 0.0
    ensures Collides(rec1, rec2, rotation2, zeroNorm) <==>
      && AxisOverlap(rec1, rec2, rotation2, Vector2(1.0, 0.0))
      && AxisOverlap(rec1, rec2, rotation2, Vector2(0.0, 1.0))
      && AxisOverlap(rec1, rec2, rotation2, Rotate(Vector2(1.0, 0.0), rotation2))
      && AxisOverlap(rec1, rec2, rotation2, Rotate(Vector2(0.0, 1.0), rotation2))
  {
    LocalAxisXDecides(rec1, rec2, rotation2, zeroNorm);
    LocalAxisYDecides(rec1, rec2, rotation2, zeroNorm);
  }

  /** With x == 0 and a zero image of the zero vector, the local x axis is zero. */
  lemma LocalAxisXAtZeroPivot(rec2: Rectangle, rotation2: Rotation)
    requires rec2.x == 0.0
    ensures SatAxes(rec2, rotation2, Vector2(0.0, 0.0))[2] == Vector2(0.0, 0.0)
  {
  }

  /** When rec2's pivot has x == 0 and normalising the zero vector gives the
      zero vector, the local x axis is the zero vector and its test always
      passes: only three axes decide. */
  lemma CollidesWithZeroPivotX(rec1: Rectangle, rec2: Rectangle, rotation2: Rotation)
    requires rec2.x == 0.0
    ensures Collides(rec1, rec2, rotation2, Vector2(0.0, 0.0)) <==>
      && AxisOverlap(rec1, rec2, rotation2, Vector2(1.0, 0.0))
      && AxisOverlap(rec1, rec2, rotation2, Vector2(0.0, 1.0))
      && AxisOverlap(rec1, rec2, rotation2, SatAxes(rec2, rotation2, Vector2(0.0, 0.0))[3])
  {
    LocalAxisXAtZeroPivot(rec2, rotation2);
    ZeroAxisOverlaps(rec1, rec2, rotation2);
  }

  /** The loop of CheckCollisionRecOrientedRec over axisToTest, whose contents
      are axes: test the axes in order and stop at the first on which the
      projections do not overlap. The result stoppedAt is the index of that
      axis, or 4 when every axis overlaps; the ghost log tested records, in
      order, the axis of every call to OverlapOnOrientedAxis, so the axes
      after stoppedAt are never evaluated. */
  method FirstSeparatingAxis(rec1: Rectangle, rec2: Rectangle, rotation2: Rotation, axisToTest: array<Vector2>,
                             ghost axes: seq<Vector2>)
    returns (stoppedAt: nat, ghost tested: seq<Vector2>)
    requires axisToTest[..] == axes && |axes| == 4
    ensures stoppedAt <= 4
    ensures forall k :: 0 <= k < stoppedAt ==> AxisOverlap(rec1, rec2, rotation2, axes[k])
    ensures stoppedAt < 4 ==> !AxisOverlap(rec1, rec2, rotation2, axes[stoppedAt])
    ensures tested == axes[..if stoppedAt == 4 then 4 else stoppedAt + 1]
  {
    tested := [];
    var i := 0;
    while i < 4
      invariant 0 <= i <= 4
      invariant forall k :: 0 <= k < i ==> AxisOverlap(rec1, rec2, rotation2, axes[k])
      invariant tested == axes[..i]
    {
      assert axisToTest[i] == axes[i];
      tested := tested + [axisToTest[i]];
      assert tested == axes[..i + 1];
      var overlap := OverlapOnOrientedAxis(rec1, rec2, rotation2, axisToTest[i]);
      if !overlap {
        return i, tested;
      }
      i := i + 1;
    }
    return 4, tested;
  }

  /** Stopping at the first axis without overlap, or at 4, decides the verdict. */
  lemma FirstSeparatingAxisDecides(rec1: Rectangle, rec2: Rectangle, rotation2: Rotation, zeroNorm: Vector2,
                                   stoppedAt: nat)
    requires stoppedAt <= 4
    requires forall k :: 0 <= k < stoppedAt ==> AxisOverlap(rec1, rec2, rotation2, SatAxes(rec2, rotation2, zeroNorm)[k])
    requires stoppedAt < 4 ==> !AxisOverlap(rec1, rec2, rotation2, SatAxes(rec2, rotation2, zeroNorm)[stoppedAt])
    ensures Collides(rec1, rec2, rotation2, zeroNorm) <==> stoppedAt == 4
  {
    CollidesIffEveryAxis(rec1, rec2, rotation2, zeroNorm);
  }

  /** CheckCollisionRecOrientedRec: build the four candidate axes and test them
      in order, stopping at the first on which the projections do not overlap.
      The ghost results are those of the loop: the index stoppedAt of that axis
      (4 when every axis overlaps) and the log of the axes evaluated, which
      ends at stoppedAt. */
  method CheckCollisionRecOrientedRec(rec1: Rectangle, rec2: Rectangle, rotation2: Rotation, zeroNorm: Vector2)
    returns (hit: bool, ghost stoppedAt: nat, ghost tested: seq<Vector2>)
    ensures hit == Collides(rec1, rec2, rotation2, zeroNorm)
    ensures stoppedAt <= 4 && (hit <==> stoppedAt == 4)
    ensures forall k :: 0 <= k < stoppedAt ==> AxisOverlap(rec1, rec2, rotation2, SatAxes(rec2, rotation2, zeroNorm)[k])
    ensures stoppedAt < 4 ==> !AxisOverlap(rec1, rec2, rotation2, SatAxes(rec2, rotation2, zeroNorm)[stoppedAt])
    ensures tested == SatAxes(rec2, rotation2, zeroNorm)[..if hit then 4 else stoppedAt + 1]
  {
    var rotAxisA := Vector2(rec2.x, 0.0);
    rotAxisA := NormalizeOnAxis(rotAxisA, zeroNorm);
    rotAxisA := Rotate(rotAxisA, rotation2);
    var rotAxisB := Vector2(0.0, rec2.y);
    rotAxisB := NormalizeOnAxis(rotAxisB, zeroNorm);
    rotAxisB := Rotate(rotAxisB, rotation2);
    var axisToTest := new Vector2[] [Vector2(1.0, 0.0), Vector2(0.0, 1.0), rotAxisA, rotAxisB];
    ghost var axes := SatAxes(rec2, rotation2, zeroNorm);
    assert axisToTest[..] == axes;

    var i;
    i, tested := FirstSeparatingAxis(rec1, rec2, rotation2, axisToTest, axes);
    FirstSeparatingAxisDecides(rec1, rec2, rotation2, zeroNorm, i);
    hit, stoppedAt := i == 4, i;
  }

  /** rec2 re-expressed in rec1's local frame: its size is kept and its pivot
      is moved by the frame transform about rec1's pivot. */
  function ReducedRec(rec1: Rectangle, rotation1: Rotation, rec2: Rectangle): (r: Rectangle)
    ensures r.width == rec2.width && r.height == rec2.height
    ensures rotation1 == Identity ==> r == rec2
    ensures rotation1.Unit() ==> RotateAbout(Pivot(r), Pivot(rec1), rotation1) == Pivot(rec2)
  {
    var p := ToLocal(Pivot(rec2), Pivot(rec1), rotation1);
    rec2.(x := p.x, y := p.y)
  }

  /** CheckCollisionOrientedRecs: take away rotation1 from both rectangles,
      which leaves rec1 axis-aligned, and run the single-rotation test. */
  method CheckCollisionOrientedRecs(rec1: Rectangle, rotation1: Rotation, rec2: Rectangle, rotation2: Rotation,
                                    zeroNorm: Vector2)
    returns (hit: bool)
    ensures hit == Collides(rec1, ReducedRec(rec1, rotation1, rec2), Difference(rotation2, rotation1), zeroNorm)
    ensures rotation1 == Identity ==> hit == Collides(rec1, rec2, rotation2, zeroNorm)
  {
    var rotation := Difference(rotation2, rotation1);
    var rec1Location := Vector2(rec1.x, rec1.y);
    var rec2RotatedLocation := Vector2(rec2.x, rec2.y);
    rec2RotatedLocation := Subtract(rec2RotatedLocation, rec1Location);
    rec2RotatedLocation := Rotate(rec2RotatedLocation, Inverse(rotation1));
    rec2RotatedLocation := Add(rec2RotatedLocation, rec1Location);
    var moved := rec2.(x := rec2RotatedLocation.x, y := rec2RotatedLocation.y);
    assert rec2RotatedLocation == ToLocal(Pivot(rec2), Pivot(rec1), rotation1);
    assert moved == ReducedRec(rec1, rotation1, rec2);

    ghost var stoppedAt, tested;
    hit, stoppedAt, tested := CheckCollisionRecOrientedRec(rec1, moved, rotation, zeroNorm);
    if rotation1 == Identity {
      DifferenceWithIdentity(rotation2, rotation1);
      assert moved == rec2;
    }
  }

  /** Two rectangles with equal sizes have the same corners relative to their pivots. */
  lemma CornersFollowPivot(rec: Rectangle, moved: Rectangle)
    requires moved.width == rec.width && moved.height == rec.height
    ensures forall k :: 0 <= k < 4 ==>
      Corners(moved)[k] == Add(Subtract(Corners(rec)[k], Pivot(rec)), Pivot(moved))
  {
  }

  /** The frame transform about p1 of a point rotated by r2 about p2 is the
      correspondingly shifted point rotated by the difference about p2's image. */
  lemma ToLocalOfRotated(v: Vector2, p2: Vector2, r2: Rotation, p1: Vector2, r1: Rotation)
    ensures var q := ToLocal(p2, p1, r1);
      ToLocal(RotateAbout(v, p2, r2), p1, r1) == RotateAbout(Add(Subtract(v, p2), q), q, Difference(r2, r1))
  {
    var q := ToLocal(p2, p1, r1);
    var i := Inverse(r1);
    var d := Subtract(v, p2);
    var w := Rotate(d, r2);
    assert Subtract(RotateAbout(v, p2, r2), p1) == Add(w, Subtract(p2, p1));
    RotateAdd(w, Subtract(p2, p1), i);
    RotateThenUndo(d, r2, r1);
    assert Subtract(Add(d, q), q) == d;
  }

  /** The reduction is the rigid motion that undoes rotation1 about rec1's
      pivot: it maps rec1's rotated corners onto its axis-aligned corners, and
      rec2's corners rotated by rotation2 onto the reduced rec2's corners
      rotated by the difference of the rotations. */
  lemma ReductionIsRigidMotion(rec1: Rectangle, rotation1: Rotation, rec2: Rectangle, rotation2: Rotation)
    requires rotation1.Unit()
    ensures forall k :: 0 <= k < 4 ==>
      ToLocal(OrientedCorners(rec1, rotation1)[k], Pivot(rec1), rotation1) == Corners(rec1)[k]
    ensures forall k :: 0 <= k < 4 ==>
      ToLocal(OrientedCorners(rec2, rotation2)[k], Pivot(rec1), rotation1)
        == OrientedCorners(ReducedRec(rec1, rotation1, rec2), Difference(rotation2, rotation1))[k]
  {
    var moved := ReducedRec(rec1, rotation1, rec2);
    var d := Difference(rotation2, rotation1);
    OrientedCornersAreRotatedCorners(rec1, rotation1);
    OrientedCornersAreRotatedCorners(rec2, rotation2);
    OrientedCornersAreRotatedCorners(moved, d);
    CornersFollowPivot(rec2, moved);
    forall k | 0 <= k < 4
      ensures ToLocal(OrientedCorners(rec1, rotation1)[k], Pivot(rec1), rotation1) == Corners(rec1)[k]
    {
      ToLocalUndoesRotateAbout(Corners(rec1)[k], Pivot(rec1), rotation1);
    }
    forall k | 0 <= k < 4
      ensures ToLocal(OrientedCorners(rec2, rotation2)[k], Pivot(rec1), rotation1) == OrientedCorners(moved, d)[k]
    {
      ToLocalOfRotated(Corners(rec2)[k], Pivot(rec2), rotation2, Pivot(rec1), rotation1);
    }
  }
}

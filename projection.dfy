/** Axis projection: the range of scalar values a rectangle's four corners take
    when projected onto a direction, for an axis-aligned rectangle
    (`GetInterval`) and for one rotated about its pivot corner
    (`GetOrientedInterval`). Both fold the projections into a [min, max] pair
    with a loop over a 4-element vertex array; `Hull` is the same fold over a
    sequence and is what the methods are proved against. */
module Projection {
  import opened Geometry
  import opened Frame

  /** The Interval2 record: the projection range of a vertex set on an axis. */
  datatype Interval2 = Interval2(min: real, max: real)

  predicate Contains(iv: Interval2, v: real) { iv.min <= v <= iv.max }

  /** One step of the fold: lower the minimum or raise the maximum to take in p. */
  function Widen(iv: Interval2, p: real): Interval2
  {
    Interval2(if p < iv.min then p else iv.min, if p > iv.max then p else iv.max)
  }

  /** Widen iv by every value of ps, first to last. */
  function Fold(iv: Interval2, ps: seq<real>): Interval2
    decreases |ps|
  {
    if ps == [] then iv else Fold(Widen(iv, ps[0]), ps[1..])
  }

  /** The range of a non-empty sequence: start from its first value, widen by the rest. */
  function Hull(ps: seq<real>): Interval2
    requires ps != []
  {
    Fold(Interval2(ps[0], ps[0]), ps[1..])
  }

  /** Folding never shrinks the start, takes in every value, and each end of the
      result is either the start's end or one of the values. */
  lemma {:induction false} FoldBounds(iv: Interval2, ps: seq<real>)
    requires iv.min <= iv.max
    ensures Fold(iv, ps).min <= iv.min && iv.max <= Fold(iv, ps).max
    ensures forall k :: 0 <= k < |ps| ==> Contains(Fold(iv, ps), ps[k])
    ensures Fold(iv, ps).min == iv.min || exists k :: 0 <= k < |ps| && Fold(iv, ps).min == ps[k]
    ensures Fold(iv, ps).max == iv.max || exists k :: 0 <= k < |ps| && Fold(iv, ps).max == ps[k]
    decreases |ps|
  {
    if ps != [] {
      var w, rest := Widen(iv, ps[0]), ps[1..];
      FoldBounds(w, rest);
      var r := Fold(iv, ps);
      assert r == Fold(w, rest);
      forall k | 0 <= k < |ps|
        ensures Contains(r, ps[k])
      {
        if k > 0 {
          assert ps[k] == rest[k - 1];
        }
      }
      if r.min != w.min {
        var k :| 0 <= k < |rest| && r.min == rest[k];
        assert r.min == ps[k + 1];
      }
      if r.max != w.max {
        var k :| 0 <= k < |rest| && r.max == rest[k];
        assert r.max == ps[k + 1];
      }
    }
  }

  /** The hull of a non-empty sequence is the tightest interval holding it:
      it contains every value and both ends are attained. */
  lemma HullIsTight(ps: seq<real>)
    requires ps != []
    ensures Hull(ps).min <= Hull(ps).max
    ensures forall k :: 0 <= k < |ps| ==> Contains(Hull(ps), ps[k])
    ensures exists k :: 0 <= k < |ps| && Hull(ps).min == ps[k]
    ensures exists k :: 0 <= k < |ps| && Hull(ps).max == ps[k]
  {
    var start, rest := Interval2(ps[0], ps[0]), ps[1..];
    FoldBounds(start, rest);
    var h := Hull(ps);
    forall k | 0 <= k < |ps|
      ensures Contains(h, ps[k])
    {
      if k > 0 {
        assert ps[k] == rest[k - 1];
      }
    }
    if h.min != ps[0] {
      var k :| 0 <= k < |rest| && h.min == rest[k];
      assert h.min == ps[k + 1];
    }
    if h.max != ps[0] {
      var k :| 0 <= k < |rest| && h.max == rest[k];
      assert h.max == ps[k + 1];
    }
  }

  /** Widening by a value already at both ends changes nothing, so a fold that
      starts at the first value and also visits it again gives the hull. */
  lemma FoldRevisitingFirst(ps: seq<real>)
    requires ps != []
    ensures Fold(Interval2(ps[0], ps[0]), ps) == Hull(ps)
  {
    var start := Interval2(ps[0], ps[0]);
    assert Widen(start, ps[0]) == start;
  }

  /** The four vertices in the order the source lists them: the pivot corner,
      the opposite corner, then the two mixed corners. */
  function Corners(rec: Rectangle): (vs: seq<Vector2>)
    ensures |vs| == 4 && vs[0] == Pivot(rec)
  {
    var min := Vector2(rec.x, rec.y);
    var max := Vector2(rec.x + rec.width, rec.y + rec.height);
    [min, max, Vector2(min.x, max.y), Vector2(max.x, min.y)]
  }

  /** The vertices of rec rotated by rotation about its pivot corner: the pivot
      stays, the other three are rotated about it. */
  function OrientedCorners(rec: Rectangle, rotation: Rotation): (vs: seq<Vector2>)
    ensures |vs| == 4 && vs[0] == Pivot(rec)
  {
    var cs := Corners(rec);
    [cs[0], RotateAbout(cs[1], cs[0], rotation), RotateAbout(cs[2], cs[0], rotation),
     RotateAbout(cs[3], cs[0], rotation)]
  }

  /** The pivot corner is never moved, every vertex is its axis-aligned corner
      rotated about the pivot, and at rotation 0 nothing moves. */
  lemma OrientedCornersAreRotatedCorners(rec: Rectangle, rotation: Rotation)
    ensures OrientedCorners(rec, rotation)[0] == Corners(rec)[0] == Pivot(rec)
    ensures forall k :: 0 <= k < 4 ==>
      OrientedCorners(rec, rotation)[k] == RotateAbout(Corners(rec)[k], Pivot(rec), rotation)
    ensures rotation == Identity ==> OrientedCorners(rec, rotation) == Corners(rec)
  {
    var cs := Corners(rec);
    assert RotateAbout(cs[0], cs[0], rotation) == cs[0];
  }

  /** The in-place rotation is rigid: every vertex keeps its distance to the
      pivot corner. */
  lemma OrientedCornersKeepShape(rec: Rectangle, rotation: Rotation)
    requires rotation.Unit()
    ensures forall k :: 0 <= k < 4 ==>
      LengthSqr(Subtract(OrientedCorners(rec, rotation)[k], Pivot(rec)))
        == LengthSqr(Subtract(Corners(rec)[k], Pivot(rec)))
  {
    OrientedCornersAreRotatedCorners(rec, rotation);
    forall k | 0 <= k < 4
      ensures LengthSqr(Subtract(OrientedCorners(rec, rotation)[k], Pivot(rec)))
        == LengthSqr(Subtract(Corners(rec)[k], Pivot(rec)))
    {
      var d := Subtract(Corners(rec)[k], Pivot(rec));
      assert Subtract(RotateAbout(Corners(rec)[k], Pivot(rec), rotation), Pivot(rec)) == Rotate(d, rotation);
      RotatePreservesLength(d, rotation);
    }
  }

  /** The projection of each vertex onto axis. */
  function Projections(axis: Vector2, vs: seq<Vector2>): (ps: seq<real>)
    ensures |ps| == |vs|
    ensures forall k :: 0 <= k < |vs| ==> ps[k] == Dot(axis, vs[k])
  {
    seq(|vs|, k requires 0 <= k < |vs| => Dot(axis, vs[k]))
  }

  /** The projection range of an axis-aligned rectangle on axis. */
  function Interval(rec: Rectangle, axis: Vector2): Interval2
  {
    Hull(Projections(axis, Corners(rec)))
  }

  /** The projection range of rec rotated about its pivot corner, on axis. */
  function OrientedInterval(rec: Rectangle, rotation: Rotation, axis: Vector2): Interval2
  {
    Hull(Projections(axis, OrientedCorners(rec, rotation)))
  }

  /** With the identity rotation the oriented projection is the plain one. */
  lemma OrientedIntervalAtZeroRotation(rec: Rectangle, rotation: Rotation, axis: Vector2)
    requires rotation == Identity
    ensures OrientedInterval(rec, rotation, axis) == Interval(rec, axis)
  {
    OrientedCornersAreRotatedCorners(rec, rotation);
  }

  /** GetInterval: project the four corners and fold them into [min, max]. */
  method GetInterval(rec: Rectangle, axis: Vector2) returns (result: Interval2)
    ensures result == Interval(rec, axis)
    ensures result.min <= result.max
    ensures forall k :: 0 <= k < 4 ==> Contains(result, Dot(axis, Corners(rec)[k]))
    ensures exists k :: 0 <= k < 4 && result.min == Dot(axis, Corners(rec)[k])
    ensures exists k :: 0 <= k < 4 && result.max == Dot(axis, Corners(rec)[k])
  {
    var min := Vector2(rec.x, rec.y);
    var max := Vector2(rec.x + rec.width, rec.y + rec.height);
    var verts := new Vector2[] [min, max, Vector2(min.x, max.y), Vector2(max.x, min.y)];
    assert verts[..] == Corners(rec);
    ghost var ps := Projections(axis, verts[..]);

    var projection := Dot(axis, verts[0]);
    result := Interval2(projection, projection);
    var i := 1;
    while i < 4
      invariant 1 <= i <= 4
      invariant Fold(result, ps[i..]) == Interval(rec, axis)
    {
      assert ps[i..] == [ps[i]] + ps[i + 1..];
      projection := Dot(axis, verts[i]);
      if projection < result.min {
        result := result.(min := projection);
      }
      if projection > result.max {
        result := result.(max := projection);
      }
      i := i + 1;
    }
    HullIsTight(ps);
  }

  /** GetOrientedInterval: rotate the last three vertices in place about the
      first, then project all four and fold them into [min, max]. */
  method GetOrientedInterval(rec: Rectangle, rotation: Rotation, axis: Vector2) returns (result: Interval2)
    ensures result == OrientedInterval(rec, rotation, axis)
    ensures result.min <= result.max
    ensures forall k :: 0 <= k < 4 ==> Contains(result, Dot(axis, OrientedCorners(rec, rotation)[k]))
    ensures exists k :: 0 <= k < 4 && result.min == Dot(axis, OrientedCorners(rec, rotation)[k])
    ensures exists k :: 0 <= k < 4 && result.max == Dot(axis, OrientedCorners(rec, rotation)[k])
  {
    var min := Vector2(rec.x, rec.y);
    var max := Vector2(rec.x + rec.width, rec.y + rec.height);
    var verts := new Vector2[] [min, max, Vector2(min.x, max.y), Vector2(max.x, min.y)];
    ghost var corners := verts[..];
    assert corners == Corners(rec);

    var i := 1;
    while i < 4
      invariant 1 <= i <= 4
      invariant verts[0] == min
      invariant forall k :: 1 <= k < i ==> verts[k] == RotateAbout(corners[k], min, rotation)
      invariant forall k :: i <= k < 4 ==> verts[k] == corners[k]
    {
      var r := Subtract(verts[i], min);
      r := Rotate(r, rotation);
      verts[i] := Add(r, min);
      i := i + 1;
    }
    assert verts[..] == OrientedCorners(rec, rotation);
    ghost var ps := Projections(axis, verts[..]);

    var projection := Dot(axis, verts[0]);
    result := Interval2(projection, projection);
    i := 0;
    while i < 4
      invariant 0 <= i <= 4
      invariant Fold(result, ps[i..]) == Fold(Interval2(ps[0], ps[0]), ps)
    {
      assert ps[i..] == [ps[i]] + ps[i + 1..];
      projection := Dot(axis, verts[i]);
      if projection < result.min {
        result := result.(min := projection);
      }
      if projection > result.max {
        result := result.(max := projection);
      }
      i := i + 1;
    }
    FoldRevisitingFirst(ps);
    HullIsTight(ps);
  }
}

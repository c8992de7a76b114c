/** The tests against a rectangle rotated about its pivot corner that reduce
    to an axis-aligned test by the frame transform: express the point (or both
    ends of the segment) in the rectangle's local frame, then test against the
    unrotated rectangle. */
module Oriented {
  import opened Geometry
  import opened Frame
  import opened Lines

  /** CheckCollisionPointOrientedRec: the point-in-rectangle primitive applied
      to the point seen in rec's local frame. */
  function CheckCollisionPointOrientedRec(point: Vector2, rec: Rectangle, rotation: Rotation,
                                          pointInRec: (Vector2, Rectangle) -> bool): (hit: bool)
    ensures rotation == Identity ==> hit == pointInRec(point, rec)
    ensures point == Pivot(rec) ==> hit == pointInRec(Pivot(rec), rec)
  {
    pointInRec(ToLocal(point, Pivot(rec), rotation), rec)
  }

  /** The oriented test accepts exactly the points obtained by rotating,
      about the pivot, a point that the axis-aligned test accepts. */
  lemma PointOrientedRecIsRotatedTest(point: Vector2, rec: Rectangle, rotation: Rotation,
                                      pointInRec: (Vector2, Rectangle) -> bool)
    requires rotation.Unit()
    ensures CheckCollisionPointOrientedRec(point, rec, rotation, pointInRec)
        <==> exists q :: RotateAbout(q, Pivot(rec), rotation) == point && pointInRec(q, rec)
  {
    var pivot := Pivot(rec);
    if CheckCollisionPointOrientedRec(point, rec, rotation, pointInRec) {
      var q := ToLocal(point, pivot, rotation);
      RotateAboutUndoesToLocal(point, pivot, rotation);
      assert RotateAbout(q, pivot, rotation) == point && pointInRec(q, rec);
    }
    if exists q :: RotateAbout(q, pivot, rotation) == point && pointInRec(q, rec) {
      var q :| RotateAbout(q, pivot, rotation) == point && pointInRec(q, rec);
      ToLocalUndoesRotateAbout(q, pivot, rotation);
    }
  }

  /** CheckCollisionLineOrientedRec: the segment test applied to both ends
      seen in rec's local frame; len is the length of the local segment after
      its start is nudged. */
  function CheckCollisionLineOrientedRec(p1: Vector2, p2: Vector2, rec: Rectangle, rotation: Rotation,
                                         len: real, pointInRec: (Vector2, Rectangle) -> bool): (hit: bool)
    requires IsNudgedLength(ToLocal(p1, Pivot(rec), rotation), ToLocal(p2, Pivot(rec), rotation), len)
    ensures rotation == Identity ==> hit == LineRecHits(p1, p2, rec, len, pointInRec)
    ensures CheckCollisionPointOrientedRec(p1, rec, rotation, pointInRec) ==> hit
    ensures CheckCollisionPointOrientedRec(p2, rec, rotation, pointInRec) ==> hit
  {
    LineRecHits(ToLocal(p1, Pivot(rec), rotation), ToLocal(p2, Pivot(rec), rotation), rec, len, pointInRec)
  }

  /** A segment rotated about the pivot meets the oriented rectangle exactly
      when the unrotated segment meets the axis-aligned one. */
  lemma LineOrientedRecOfRotated(q1: Vector2, q2: Vector2, rec: Rectangle, rotation: Rotation,
                                 len: real, pointInRec: (Vector2, Rectangle) -> bool)
    requires rotation.Unit()
    requires IsNudgedLength(q1, q2, len)
    ensures ToLocal(RotateAbout(q1, Pivot(rec), rotation), Pivot(rec), rotation) == q1
    ensures ToLocal(RotateAbout(q2, Pivot(rec), rotation), Pivot(rec), rotation) == q2
    ensures CheckCollisionLineOrientedRec(RotateAbout(q1, Pivot(rec), rotation), RotateAbout(q2, Pivot(rec), rotation),
                                          rec, rotation, len, pointInRec)
         == LineRecHits(q1, q2, rec, len, pointInRec)
  {
    ToLocalUndoesRotateAbout(q1, Pivot(rec), rotation);
    ToLocalUndoesRotateAbout(q2, Pivot(rec), rotation);
  }

  /** Soundness of the oriented segment test: a hit means an end lies in the
      oriented rectangle, or the local segment from its nudged start meets
      rec's box. */
  lemma LineOrientedRecHitIsContact(p1: Vector2, p2: Vector2, rec: Rectangle, rotation: Rotation,
                                    len: real, pointInRec: (Vector2, Rectangle) -> bool)
    requires IsNudgedLength(ToLocal(p1, Pivot(rec), rotation), ToLocal(p2, Pivot(rec), rotation), len)
    requires CheckCollisionLineOrientedRec(p1, p2, rec, rotation, len, pointInRec)
    ensures var l1, l2 := ToLocal(p1, Pivot(rec), rotation), ToLocal(p2, Pivot(rec), rotation);
      || CheckCollisionPointOrientedRec(p1, rec, rotation, pointInRec)
      || CheckCollisionPointOrientedRec(p2, rec, rotation, pointInRec)
      || exists u :: 0.0 < u < 1.0 && InBox(PointAt(Nudge(l1, l2), l2, u), rec)
  {
    LineRecHitIsContact(ToLocal(p1, Pivot(rec), rotation), ToLocal(p2, Pivot(rec), rotation), rec, len, pointInRec);
  }
}

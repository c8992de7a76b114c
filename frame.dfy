/** The frame transform that the oriented tests inline: to see a point in the
    local frame of a rectangle rotated by r about its pivot corner, subtract the
    pivot, rotate by -r and add the pivot back. Its forward counterpart,
    `RotateAbout`, is what places an oriented rectangle's corners. */
module Frame {
  import opened Geometry

  /** Rotate v by r about pivot. */
  function RotateAbout(v: Vector2, pivot: Vector2, r: Rotation): (w: Vector2)
    ensures v == pivot ==> w == pivot
    ensures r == Identity ==> w == v
  {
    var d := Subtract(v, pivot);
    assert v == pivot ==> Rotate(d, r) == Vector2(0.0, 0.0) by {
      if v == pivot {
        assert d == Vector2(0.0, 0.0);
      }
    }
    assert r == Identity ==> Rotate(d, r) == d by {
      if r == Identity {
        RotateByIdentity(d, r);
      }
    }
    Add(Rotate(d, r), pivot)
  }

  /** p expressed in the local, unrotated frame of a shape rotated by r about pivot. */
  function ToLocal(p: Vector2, pivot: Vector2, r: Rotation): (q: Vector2)
    ensures p == pivot ==> q == pivot
    ensures r == Identity ==> q == p
  {
    RotateAbout(p, pivot, Inverse(r))
  }

  /** Inverse law: a local point rotated forward and then transformed back is itself. */
  lemma ToLocalUndoesRotateAbout(q: Vector2, pivot: Vector2, r: Rotation)
    requires r.Unit()
    ensures ToLocal(RotateAbout(q, pivot, r), pivot, r) == q
  {
    var v := Subtract(q, pivot);
    assert Subtract(RotateAbout(q, pivot, r), pivot) == Rotate(v, r);
    RotateThenInverse(v, r);
  }

  /** The other direction of the inverse law. */
  lemma RotateAboutUndoesToLocal(p: Vector2, pivot: Vector2, r: Rotation)
    requires r.Unit()
    ensures RotateAbout(ToLocal(p, pivot, r), pivot, r) == p
  {
    var v := Subtract(p, pivot);
    assert Subtract(ToLocal(p, pivot, r), pivot) == Rotate(v, Inverse(r));
    InverseThenRotate(v, r);
  }

  /** The frame transform is a rigid motion: it keeps distances. */
  lemma ToLocalKeepsDistance(a: Vector2, b: Vector2, pivot: Vector2, r: Rotation)
    requires r.Unit()
    ensures LengthSqr(Subtract(ToLocal(a, pivot, r), ToLocal(b, pivot, r))) == LengthSqr(Subtract(a, b))
  {
    var da, db := Subtract(a, pivot), Subtract(b, pivot);
    assert Subtract(ToLocal(a, pivot, r), ToLocal(b, pivot, r))
        == Subtract(Rotate(da, Inverse(r)), Rotate(db, Inverse(r)));
    RotateSubtract(da, db, Inverse(r));
    assert Subtract(da, db) == Subtract(a, b);
    InverseIsUnit(r);
    RotatePreservesLength(Subtract(a, b), Inverse(r));
  }
}

/** Points, rectangles, rotations and the vector algebra the collision tests are
    built on. They stand for raylib's `Vector2` and `Rectangle` structs and for
    the raymath helpers, modelled exactly over the reals. A rotation is given by
    its cosine and sine rather than by an angle in degrees, so no trigonometry is
    needed: the rotation by angle 0 is `Identity`, the rotation by -θ is
    `Inverse`, and the rotation by θ2 - θ1 is `Difference`. A pair that comes
    from an angle lies on the unit circle (`Unit`). */
module Geometry {

  datatype Vector2 = Vector2(x: real, y: real)

  /** (x, y) is the pivot corner; the shape extends by +width in x and +height in y. */
  datatype Rectangle = Rectangle(x: real, y: real, width: real, height: real)

  function Add(a: Vector2, b: Vector2): Vector2 { Vector2(a.x + b.x, a.y + b.y) }

  function Subtract(a: Vector2, b: Vector2): Vector2 { Vector2(a.x - b.x, a.y - b.y) }

  function Scale(v: Vector2, k: real): Vector2 { Vector2(v.x * k, v.y * k) }

  /** Component-wise product (raymath's Vector2Multiply). */
  function Multiply(a: Vector2, b: Vector2): Vector2 { Vector2(a.x * b.x, a.y * b.y) }

  function Dot(a: Vector2, b: Vector2): real { a.x * b.x + a.y * b.y }

  function LengthSqr(v: Vector2): real { v.x * v.x + v.y * v.y }

  /** The pivot corner of a rectangle, about which its rotation is applied. */
  function Pivot(rec: Rectangle): Vector2 { Vector2(rec.x, rec.y) }

  function Min(a: real, b: real): real { if a < b then a else b }

  function Max(a: real, b: real): real { if a > b then a else b }

  /** v lies between a and b, in either order. */
  predicate Between(v: real, a: real, b: real) { Min(a, b) <= v <= Max(a, b) }

  /** A rotation, given by the cosine and sine of its angle. */
  datatype Rotation = Rotation(c: real, s: real) {
    /** Every angle gives a pair on the unit circle. */
    predicate Unit() { c * c + s * s == 1.0 }
  }

  /** The rotation by 0 degrees. */
  const Identity: Rotation := Rotation(1.0, 0.0)

  /** Vector2Rotate: the counter-clockwise rotation of v by r. */
  function Rotate(v: Vector2, r: Rotation): Vector2
  {
    Vector2(v.x * r.c - v.y * r.s, v.x * r.s + v.y * r.c)
  }

  /** The rotation by the opposite angle. */
  function Inverse(r: Rotation): Rotation { Rotation(r.c, -r.s) }

  /** The rotation by the angle of r2 minus the angle of r1. */
  function Difference(r2: Rotation, r1: Rotation): Rotation
  {
    Rotation(r2.c * r1.c + r2.s * r1.s, r2.s * r1.c - r2.c * r1.s)
  }

  lemma InverseIsUnit(r: Rotation)
    requires r.Unit()
    ensures Inverse(r).Unit()
  {
  }

  lemma DifferenceIsUnit(r2: Rotation, r1: Rotation)
    requires r2.Unit() && r1.Unit()
    ensures Difference(r2, r1).Unit()
  {
    var d := Difference(r2, r1);
    calc {
      d.c * d.c + d.s * d.s;
    ==
      r2.c * r2.c * (r1.c * r1.c + r1.s * r1.s) + r2.s * r2.s * (r1.c * r1.c + r1.s * r1.s);
    ==
      r2.c * r2.c + r2.s * r2.s;
    }
  }

  lemma RotateByIdentity(v: Vector2, r: Rotation)
    requires r == Identity
    ensures Rotate(v, r) == v && Rotate(v, Inverse(r)) == v
  {
  }

  /** Rotating by r and then by its inverse gives the vector back. */
  lemma RotateThenInverse(v: Vector2, r: Rotation)
    requires r.Unit()
    ensures Rotate(Rotate(v, r), Inverse(r)) == v
  {
    var w := Rotate(Rotate(v, r), Inverse(r));
    assert w.x == v.x * (r.c * r.c + r.s * r.s);
    assert w.y == v.y * (r.c * r.c + r.s * r.s);
  }

  /** Rotating by the inverse of r and then by r gives the vector back. */
  lemma InverseThenRotate(v: Vector2, r: Rotation)
    requires r.Unit()
    ensures Rotate(Rotate(v, Inverse(r)), r) == v
  {
    var w := Rotate(Rotate(v, Inverse(r)), r);
    assert w.x == v.x * (r.c * r.c + r.s * r.s);
    assert w.y == v.y * (r.c * r.c + r.s * r.s);
  }

  lemma RotateThenUndoX(v: Vector2, r2: Rotation, r1: Rotation)
    ensures Rotate(Rotate(v, r2), Inverse(r1)).x == Rotate(v, Difference(r2, r1)).x
  {
  }

  lemma RotateThenUndoY(v: Vector2, r2: Rotation, r1: Rotation)
    ensures Rotate(Rotate(v, r2), Inverse(r1)).y == Rotate(v, Difference(r2, r1)).y
  {
  }

  /** Rotating by r2 and then by the inverse of r1 is rotating by their difference. */
  lemma RotateThenUndo(v: Vector2, r2: Rotation, r1: Rotation)
    ensures Rotate(Rotate(v, r2), Inverse(r1)) == Rotate(v, Difference(r2, r1))
  {
    RotateThenUndoX(v, r2, r1);
    RotateThenUndoY(v, r2, r1);
  }

  /** Rotation distributes over subtraction. */
  lemma RotateSubtract(a: Vector2, b: Vector2, r: Rotation)
    ensures Subtract(Rotate(a, r), Rotate(b, r)) == Rotate(Subtract(a, b), r)
  {
  }

  /** Rotation distributes over addition. */
  lemma RotateAdd(a: Vector2, b: Vector2, r: Rotation)
    ensures Rotate(Add(a, b), r) == Add(Rotate(a, r), Rotate(b, r))
  {
  }

  /** Rotations preserve lengths. */
  lemma RotatePreservesLength(v: Vector2, r: Rotation)
    requires r.Unit()
    ensures LengthSqr(Rotate(v, r)) == LengthSqr(v)
  {
    calc {
      LengthSqr(Rotate(v, r));
    ==
      (v.x * v.x + v.y * v.y) * (r.c * r.c + r.s * r.s);
    ==
      LengthSqr(v);
    }
  }

  lemma DifferenceWithIdentity(r: Rotation, id: Rotation)
    requires id == Identity
    ensures Difference(r, id) == r
  {
  }
}

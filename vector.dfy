/**
 * The operations of the immutable `Vector` struct: componentwise arithmetic,
 * cross and dot products, and the zero, parallel and orthogonal tests.
 * Components are exact reals, so the identities proved here are exact.
 */
module Vectors {
  import opened Geometry

  /** `-v`: undoes itself and cancels `v`. */
  function Neg(v: Vector): (r: Vector)
    ensures Plus(v, r) == Zero
  {
    Vector(-v.x, -v.y, -v.z)
  }

  /** `a + b`: translating by the sum is translating by `a`, then by `b`. */
  function Plus(a: Vector, b: Vector): (r: Vector)
    ensures forall p :: Translate(p, r) == Translate(Translate(p, a), b)
  {
    Vector(a.x + b.x, a.y + b.y, a.z + b.z)
  }

  /** `a - b`: adding `b` back gives `a`. */
  function Minus(a: Vector, b: Vector): (r: Vector)
    ensures Plus(r, b) == a
    ensures r == Plus(a, Neg(b))
  {
    Vector(a.x - b.x, a.y - b.y, a.z - b.z)
  }

  /** `v * k`: a multiple of `v`, hence parallel to it. */
  function Times(v: Vector, k: real): (r: Vector)
    ensures IsParallelTo(v, r)
    ensures k == 1.0 ==> r == v
    ensures k == 0.0 || IsZeroVector(v) ==> IsZeroVector(r)
  {
    Vector(v.x * k, v.y * k, v.z * k)
  }

  /** `v / k` for a non-zero `k`: multiplying back by `k` gives `v`. */
  function Divide(v: Vector, k: real): (r: Vector)
    requires k != 0.0
    ensures Times(r, k) == v
  {
    Vector(v.x / k, v.y / k, v.z / k)
  }

  /** `a.Dot(b)`: zero when either operand is zero, never negative for a vector with itself. */
  function Dot(a: Vector, b: Vector): (r: real)
    ensures IsZeroVector(a) || IsZeroVector(b) ==> r == 0.0
    ensures a == b ==> r >= 0.0
  {
    SquareNonNegative(a.x);
    SquareNonNegative(a.y);
    SquareNonNegative(a.z);
    a.x * b.x + a.y * b.y + a.z * b.z
  }

  /** `a.Cross(b)`: zero for a vector with itself and when either operand is zero. */
  function Cross(a: Vector, b: Vector): (r: Vector)
    ensures a == b ==> r == Zero
    ensures a == Zero || b == Zero ==> r == Zero
  {
    Vector(a.y * b.z - a.z * b.y, a.z * b.x - a.x * b.z, a.x * b.y - a.y * b.x)
  }

  /** `X*X + Y*Y + Z*Z`: the dot product with itself, never negative, zero for the zero vector. */
  function LengthSquared(v: Vector): (r: real)
    ensures r == Dot(v, v)
    ensures r >= 0.0
    ensures IsZeroVector(v) ==> r == 0.0
  {
    SquareNonNegative(v.x);
    SquareNonNegative(v.y);
    SquareNonNegative(v.z);
    v.x * v.x + v.y * v.y + v.z * v.z
  }

  lemma SquareNonNegative(x: real)
    ensures x * x >= 0.0
  {
    if x < 0.0 {
      PositiveProduct(-x, -x);
      assert x * x == (-x) * (-x);
    } else if x > 0.0 {
      PositiveProduct(x, x);
    }
  }

  lemma PositiveProduct(x: real, y: real)
    requires x > 0.0 && y > 0.0
    ensures x * y > 0.0
  {
  }

  /** Negation undoes itself. */
  lemma NegInvolution(v: Vector)
    ensures Neg(Neg(v)) == v
  {
  }

  lemma PlusCommutative(a: Vector, b: Vector)
    ensures Plus(a, b) == Plus(b, a)
  {
  }

  /** Exact test against the zero vector. */
  predicate IsZeroVector(v: Vector)
    ensures IsZeroVector(v) <==> v == Zero
  {
    v.x == 0.0 && v.y == 0.0 && v.z == 0.0
  }

  /** Two vectors are parallel when their cross product is exactly zero; the zero vector is parallel to all. */
  predicate IsParallelTo(a: Vector, b: Vector)
    ensures IsZeroVector(a) || IsZeroVector(b) ==> IsParallelTo(a, b)
    ensures a == b ==> IsParallelTo(a, b)
  {
    IsZeroVector(Cross(a, b))
  }

  /**
   * Two vectors are orthogonal when their dot product is within the tolerance
   * of zero: an exactly zero dot product qualifies, and so does the zero vector.
   */
  predicate IsOrthogonalTo(a: Vector, b: Vector)
    ensures Dot(a, b) == 0.0 ==> IsOrthogonalTo(a, b)
    ensures IsZeroVector(a) || IsZeroVector(b) ==> IsOrthogonalTo(a, b)
  {
    Abs(Dot(a, b)) < Epsilon
  }

  /** `==`: exact componentwise equality. */
  predicate Equal(a: Vector, b: Vector)
    ensures Equal(a, b) <==> a == b
  {
    a.x == b.x && a.y == b.y && a.z == b.z
  }

  /** `!=`: the negation of `==`. */
  predicate NotEqual(a: Vector, b: Vector)
    ensures NotEqual(a, b) <==> a != b
  {
    !Equal(a, b)
  }

  /** Swapping the operands of Cross negates the result. */
  lemma CrossAnticommutative(a: Vector, b: Vector)
    ensures Cross(a, b) == Neg(Cross(b, a))
  {
  }

  /** A vector crossed with itself is zero, so every vector is parallel to itself. */
  lemma CrossSelfIsZero(a: Vector)
    ensures IsZeroVector(Cross(a, a))
    ensures IsParallelTo(a, a)
  {
  }

  lemma ParallelSymmetric(a: Vector, b: Vector)
    ensures IsParallelTo(a, b) <==> IsParallelTo(b, a)
  {
    CrossAnticommutative(a, b);
  }

  /** The cross product is perpendicular to both operands. */
  lemma CrossOrthogonal(a: Vector, b: Vector)
    ensures Dot(Cross(a, b), a) == 0.0
    ensures Dot(Cross(a, b), b) == 0.0
    ensures IsOrthogonalTo(Cross(a, b), a) && IsOrthogonalTo(Cross(a, b), b)
  {
    var c := Cross(a, b);
    calc {
      Dot(c, a);
      (a.y * b.z - a.z * b.y) * a.x + (a.z * b.x - a.x * b.z) * a.y + (a.x * b.y - a.y * b.x) * a.z;
      a.x * a.y * b.z - a.x * a.z * b.y + a.y * a.z * b.x - a.x * a.y * b.z + a.x * a.z * b.y - a.y * a.z * b.x;
      0.0;
    }
    calc {
      Dot(c, b);
      (a.y * b.z - a.z * b.y) * b.x + (a.z * b.x - a.x * b.z) * b.y + (a.x * b.y - a.y * b.x) * b.z;
      a.y * b.x * b.z - a.z * b.x * b.y + a.z * b.x * b.y - a.x * b.y * b.z + a.x * b.y * b.z - a.y * b.x * b.z;
      0.0;
    }
  }

  lemma DotCommutative(a: Vector, b: Vector)
    ensures Dot(a, b) == Dot(b, a)
  {
  }

  /** Orthogonality does not depend on the order of the operands. */
  lemma OrthogonalSymmetric(a: Vector, b: Vector)
    ensures IsOrthogonalTo(a, b) <==> IsOrthogonalTo(b, a)
  {
    DotCommutative(a, b);
  }

  /**
   * The arbitrary-axis choice of a right vector for a plane normal, before
   * normalisation: the Y axis crossed with the normal when the normal is
   * the Z axis or its opposite, the Z axis crossed with it otherwise.  The
   * result lies in the XY plane; `RightVectorPerpendicular` shows it is
   * perpendicular to the normal and non-zero.
   */
  function RightVectorFromNormal(normal: Vector): (r: Vector)
    ensures r.z == 0.0
    ensures normal == ZAxis || normal == Neg(ZAxis) ==> r == Cross(YAxis, normal) && r == Vector(normal.z, 0.0, 0.0)
    ensures normal != ZAxis && normal != Neg(ZAxis) ==> r == Cross(ZAxis, normal) && r == Vector(-normal.y, normal.x, 0.0)
  {
    CrossWithAxes(normal);
    if normal == ZAxis || normal == Neg(ZAxis) then Cross(YAxis, normal) else Cross(ZAxis, normal)
  }

  /**
   * The right vector is perpendicular to the normal, and non-zero for +-Z and
   * for every normal with an X or Y component.
   */
  lemma RightVectorPerpendicular(normal: Vector)
    ensures Dot(RightVectorFromNormal(normal), normal) == 0.0
    ensures (normal == ZAxis || normal == Neg(ZAxis) || normal.x != 0.0 || normal.y != 0.0) ==>
      !IsZeroVector(RightVectorFromNormal(normal))
  {
    var n := normal;
    if n == ZAxis || n == Neg(ZAxis) {
      assert RightVectorFromNormal(n) == Vector(n.z, 0.0, 0.0) && n == Vector(0.0, n.y, n.z);
      AlongXIsPerpendicular(n.z, n.y, n.z);
    } else {
      assert RightVectorFromNormal(n) == Vector(-n.y, n.x, 0.0) && n == Vector(n.x, n.y, n.z);
      QuarterTurnIsPerpendicular(n.x, n.y, n.z);
    }
  }

  /** A vector along the X axis is perpendicular to one with no X component. */
  lemma AlongXIsPerpendicular(k: real, y: real, z: real)
    ensures Dot(Vector(k, 0.0, 0.0), Vector(0.0, y, z)) == 0.0
  {
  }

  /** Turning the XY part of a vector a quarter turn gives a perpendicular vector. */
  lemma QuarterTurnIsPerpendicular(x: real, y: real, z: real)
    ensures Dot(Vector(-y, x, 0.0), Vector(x, y, z)) == 0.0
  {
  }

  /** The two cross products RightVectorFromNormal chooses between, written out. */
  lemma CrossWithAxes(n: Vector)
    ensures Cross(YAxis, n) == Vector(n.z, 0.0, -n.x)
    ensures Cross(ZAxis, n) == Vector(-n.y, n.x, 0.0)
  {
  }

  /** The same choice read the other way round: a normal for a right vector. */
  function NormalFromRightVector(right: Vector): (r: Vector)
    ensures Dot(r, right) == 0.0
    ensures r.z == 0.0
    ensures r == RightVectorFromNormal(right)
  {
    RightVectorPerpendicular(right);
    RightVectorFromNormal(right)
  }
}

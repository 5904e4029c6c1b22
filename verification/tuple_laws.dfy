/** Algebraic laws of the geometry kernel and the concrete cases the
    source's unit tests check. */
module TupleLaws {
  import opened Tuple

  // ---------------------------------------------------------------------
  // Scalar ordering

  /** Scalars compare as their numbers do: a strict total order. */
  lemma ScalarOrder(a: Scalar, b: Scalar, c: Scalar)
    ensures !Less(a, a)
    ensures Less(a, b) && Less(b, c) ==> Less(a, c)
    ensures Less(a, b) || a == b || Less(b, a)
  {
  }

  // ---------------------------------------------------------------------
  // Vector addition

  /** Vectors form a commutative group under Add with Zero and Neg. */
  lemma AddGroup(a: Vector, b: Vector, c: Vector)
    ensures Add(a, b) == Add(b, a)
    ensures Add(Add(a, b), c) == Add(a, Add(b, c))
    ensures Add(a, Zero) == a
    ensures Sub(a, b) == Add(a, Neg(b))
  {
  }

  /** Negating a vector is subtracting it from the zero vector. */
  lemma NegIsZeroMinus(v: Vector)
    ensures Neg(v) == Sub(Zero, v)
    ensures Neg(Neg(v)) == v
  {
  }

  // ---------------------------------------------------------------------
  // Points and vectors

  /** Subtracting a vector from a point and adding it back is the identity,
      and so is the other order. */
  lemma PointVectorRoundTrip(p: Point, v: Vector)
    ensures PointPlusVector(PointMinusVector(p, v), v) == p
    ensures PointMinusVector(PointPlusVector(p, v), v) == p
  {
  }

  /** Point - Point is the unique displacement between the two points, and
      swapping the operands negates it. */
  lemma PointDifference(p: Point, q: Point, v: Vector)
    ensures PointPlusVector(q, v) == p <==> v == PointMinusPoint(p, q)
    ensures PointMinusPoint(q, p) == Neg(PointMinusPoint(p, q))
  {
  }

  /** Translating by a sum of displacements is translating by each in turn. */
  lemma TranslateAdditive(p: Point, u: Vector, v: Vector)
    ensures PointPlusVector(PointPlusVector(p, u), v) == PointPlusVector(p, Add(u, v))
    ensures PointPlusVector(p, Zero) == p
  {
  }

  // ---------------------------------------------------------------------
  // Scaling

  /** Scaling by a nonzero Scalar and dividing by it returns the vector;
      scaling by one half is dividing by two. */
  lemma ScaleThenDivide(v: Vector, s: Scalar)
    requires s.value != 0.0
    ensures Div(Mul(v, s), s) == v
    ensures Mul(Div(v, s), s) == v
    ensures Mul(v, Scalar(0.5)) == Div(v, Scalar(2.0))
  {
    MulThenDiv(v.x, s.value);
    MulThenDiv(v.y, s.value);
    MulThenDiv(v.z, s.value);
  }

  lemma MulThenDiv(a: real, m: real)
    requires m != 0.0
    ensures (a * m) / m == a
  {
  }

  /** Scaling distributes over vector addition; scaling by zero, or
      scaling the zero vector, gives the zero vector. */
  lemma ScaleLinear(u: Vector, v: Vector, s: Scalar)
    ensures Mul(Add(u, v), s) == Add(Mul(u, s), Mul(v, s))
    ensures Mul(v, Scalar(0.0)) == Zero
    ensures Mul(Zero, s) == Zero
  {
  }

  /** Scaling twice is scaling by the product of the Scalars. */
  lemma ScaleCompose(v: Vector, s: Scalar, t: Scalar)
    ensures Mul(Mul(v, s), t) == Mul(v, Scalar(s.value * t.value))
  {
    assert (v.x * s.value) * t.value == v.x * (s.value * t.value);
    assert (v.y * s.value) * t.value == v.y * (s.value * t.value);
    assert (v.z * s.value) * t.value == v.z * (s.value * t.value);
  }

  // ---------------------------------------------------------------------
  // Products

  /** The dot product is symmetric and v.v is never negative. */
  lemma DotLaws(a: Vector, b: Vector)
    ensures Dot(a, b) == Dot(b, a)
    ensures Dot(a, a).value == MagnitudeSquared(a) >= 0.0
  {
  }

  /** The cross product is anticommutative, and a vector crossed with
      itself is zero. */
  lemma CrossAnticommutative(a: Vector, b: Vector)
    ensures Cross(a, b) == Neg(Cross(b, a))
    ensures Cross(a, a) == Zero
  {
  }

  // ---------------------------------------------------------------------
  // Magnitude

  /** A magnitude, when one is given, is unique, and it is zero exactly for
      the zero vector. */
  lemma MagnitudeUnique(v: Vector, m: Scalar, m': Scalar)
    requires IsMagnitude(v, m) && IsMagnitude(v, m')
    ensures m == m'
    ensures m.value == 0.0 <==> v == Zero
  {
    SquareInjective(m.value, m'.value);
    SquareFacts(m.value);
    MagnitudeSquaredZero(v);
  }

  /** A magnitude is below a non-negative bound exactly when the squared
      magnitude is below the bound's square; with bound one this is the
      rest clamp's test, `magnitude < 1` iff `x*x + y*y + z*z < 1`. */
  lemma MagnitudeBelow(v: Vector, m: Scalar, bound: real)
    requires IsMagnitude(v, m) && bound >= 0.0
    ensures Less(m, Scalar(bound)) <==> MagnitudeSquared(v) < Sq(bound)
    ensures Less(m, Scalar(1.0)) <==> MagnitudeSquared(v) < 1.0
  {
    SquareMonotone(m.value, bound);
    SquareMonotone(m.value, 1.0);
  }

  /** Normalizing an already normalized vector leaves it unchanged. */
  lemma NormalizeIdempotent(v: Vector, mag: Scalar)
    requires IsMagnitude(v, mag) && mag.value != 0.0
    ensures Normalize(Normalize(v, mag), Scalar(1.0)) == Normalize(v, mag)
  {
  }

  // ---------------------------------------------------------------------
  // The source's unit tests, one lemma each

  lemma AddingPointAndVector()
    ensures PointPlusVector(Point(3.0, -2.0, 5.0), Vector(-2.0, 3.0, 1.0)) == Point(1.0, 1.0, 6.0)
  {
  }

  lemma SubtractingTwoPoints()
    ensures PointMinusPoint(Point(3.0, 2.0, 1.0), Point(5.0, 6.0, 7.0)) == Vector(-2.0, -4.0, -6.0)
  {
  }

  lemma SubtractingVectorFromPoint()
    ensures PointMinusVector(Point(3.0, 2.0, 1.0), Vector(5.0, 6.0, 7.0)) == Point(-2.0, -4.0, -6.0)
  {
  }

  lemma SubtractingTwoVectors()
    ensures Sub(Vector(3.0, 2.0, 1.0), Vector(5.0, 6.0, 7.0)) == Vector(-2.0, -4.0, -6.0)
  {
  }

  lemma SubtractingFromZeroVector()
    ensures Sub(Zero, Vector(1.0, -2.0, 3.0)) == Vector(-1.0, 2.0, -3.0)
  {
  }

  lemma NegatingVector()
    ensures Neg(Vector(1.0, -2.0, 3.0)) == Vector(-1.0, 2.0, -3.0)
  {
  }

  lemma MultiplyingByScalar()
    ensures Mul(Vector(1.0, -2.0, 3.0), Scalar(3.5)) == Vector(3.5, -7.0, 10.5)
  {
  }

  lemma MultiplyingByFraction()
    ensures Mul(Vector(1.0, -2.0, 3.0), Scalar(0.5)) == Vector(0.5, -1.0, 1.5)
  {
  }

  lemma DividingByScalar()
    ensures Div(Vector(1.0, -2.0, 3.0), Scalar(2.0)) == Vector(0.5, -1.0, 1.5)
  {
  }

  /** Unit axes have magnitude one; (1,2,3) and (-1,-2,-3) share the
      magnitude sqrt 14. */
  lemma ComputingMagnitude(m: Scalar)
    requires IsMagnitude(Vector(1.0, 2.0, 3.0), m)
    ensures IsMagnitude(Vector(1.0, 0.0, 0.0), Scalar(1.0))
    ensures IsMagnitude(Vector(0.0, 1.0, 0.0), Scalar(1.0))
    ensures IsMagnitude(Vector(0.0, 0.0, 1.0), Scalar(1.0))
    ensures Sq(m.value) == 14.0
    ensures IsMagnitude(Vector(-1.0, -2.0, -3.0), m)
  {
  }

  /** A positive multiple of an axis, such as (4,0,0), has that multiple
      as its magnitude and normalizes to the unit axis (1,0,0). */
  lemma NormalizingAxisVector(a: real)
    requires a > 0.0
    ensures IsMagnitude(Vector(a, 0.0, 0.0), Scalar(a))
    ensures Normalize(Vector(a, 0.0, 0.0), Scalar(a)) == Vector(1.0, 0.0, 0.0)
  {
    var v := Vector(a, 0.0, 0.0);
    assert MagnitudeSquared(v) == Sq(a);
    var u := Normalize(v, Scalar(a));
    assert u == Vector(a / a, 0.0 / a, 0.0 / a);
  }

  /** (1,2,3) normalizes to (1,2,3) divided by its magnitude, and the
      result has magnitude one. */
  lemma NormalizingVector(m: Scalar)
    requires IsMagnitude(Vector(1.0, 2.0, 3.0), m)
    ensures m.value != 0.0
    ensures Normalize(Vector(1.0, 2.0, 3.0), m) == Vector(1.0 / m.value, 2.0 / m.value, 3.0 / m.value)
    ensures IsMagnitude(Normalize(Vector(1.0, 2.0, 3.0), m), Scalar(1.0))
  {
    MagnitudeUnique(Vector(1.0, 2.0, 3.0), m, m);
  }

  lemma DotProduct()
    ensures Dot(Vector(1.0, 2.0, 3.0), Vector(2.0, 3.0, 4.0)) == Scalar(20.0)
  {
  }

  lemma CrossProduct()
    ensures Cross(Vector(1.0, 2.0, 3.0), Vector(2.0, 3.0, 4.0)) == Vector(-1.0, 2.0, -1.0)
    ensures Cross(Vector(2.0, 3.0, 4.0), Vector(1.0, 2.0, 3.0)) == Vector(1.0, -2.0, 1.0)
  {
  }
}

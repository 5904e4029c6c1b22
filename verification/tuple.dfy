/** The geometry kernel of the ray tracer: three distinct value types (an
    affine Point, a free Vector and a dimensionless Scalar) and the closed
    set of operators that are legal between them. Every coordinate is an
    exact real; the source's f64 rounding and tolerance-based equality are
    not modelled, so "equal" here means exactly equal. */
module Tuple {

  /** An affine position: "where". */
  datatype Point = Point(x: real, y: real, z: real)

  /** A free displacement, velocity or force: "how much and which way". */
  datatype Vector = Vector(x: real, y: real, z: real)

  /** A dimensionless multiplier, kept apart from bare reals so that only
      Vector * Scalar (never Vector * Vector) can be written. */
  datatype Scalar = Scalar(value: real)

  const Zero: Vector := Vector(0.0, 0.0, 0.0)

  /** Scalar ordering compares the wrapped numbers. */
  predicate Less(a: Scalar, b: Scalar) {
    a.value < b.value
  }

  // ---------------------------------------------------------------------
  // Vector +/- Vector, -Vector

  /** Vector + Vector. The source has an owned, a by-reference and a mixed
      form; on immutable values they are one function. */
  function Add(a: Vector, b: Vector): Vector {
    Vector(a.x + b.x, a.y + b.y, a.z + b.z)
  }

  /** Vector += Vector, performed one field at a time as the source does. */
  function AddAssign(v: Vector, d: Vector): (after: Vector)
    ensures after == Add(v, d)
    ensures Sub(after, d) == v
  {
    var v1 := v.(x := v.x + d.x);
    var v2 := v1.(y := v1.y + d.y);
    v2.(z := v2.z + d.z)
  }

  /** Vector - Vector: the displacement that added to `b` gives `a`. */
  function Sub(a: Vector, b: Vector): (r: Vector)
    ensures Add(r, b) == a
    ensures Add(b, r) == a
  {
    Vector(a.x - b.x, a.y - b.y, a.z - b.z)
  }

  /** -Vector: the additive inverse. */
  function Neg(v: Vector): (r: Vector)
    ensures Add(v, r) == Zero
    ensures Add(r, v) == Zero
  {
    Vector(-v.x, -v.y, -v.z)
  }

  // ---------------------------------------------------------------------
  // Point +/- Vector, Point - Point

  /** Point + Vector: translate a position by a displacement. */
  function PointPlusVector(p: Point, v: Vector): Point {
    Point(p.x + v.x, p.y + v.y, p.z + v.z)
  }

  /** Point += Vector, performed one field at a time as the source does. */
  function PointAddAssign(p: Point, d: Vector): (after: Point)
    ensures after == PointPlusVector(p, d)
    ensures PointMinusPoint(after, p) == d
  {
    var p1 := p.(x := p.x + d.x);
    var p2 := p1.(y := p1.y + d.y);
    p2.(z := p2.z + d.z)
  }

  /** Point - Point: the displacement from `q` to `p` (left operand minus right). */
  function PointMinusPoint(p: Point, q: Point): (v: Vector)
    ensures PointPlusVector(q, v) == p
  {
    Vector(p.x - q.x, p.y - q.y, p.z - q.z)
  }

  /** Point - Vector: translate a position by the negated displacement. */
  function PointMinusVector(p: Point, v: Vector): (r: Point)
    ensures PointPlusVector(r, v) == p
    ensures r == PointPlusVector(p, Neg(v))
  {
    Point(p.x - v.x, p.y - v.y, p.z - v.z)
  }

  // ---------------------------------------------------------------------
  // Scaling

  /** Vector * Scalar (owned and by-reference forms alike). */
  function Mul(v: Vector, s: Scalar): Vector {
    Vector(v.x * s.value, v.y * s.value, v.z * s.value)
  }

  /** Vector / Scalar. The source divides unchecked and yields NaN or
      infinities for a zero Scalar; here a zero divisor is excluded. */
  function Div(v: Vector, s: Scalar): (r: Vector)
    requires s.value != 0.0
    ensures Mul(r, s) == v
  {
    Vector(v.x / s.value, v.y / s.value, v.z / s.value)
  }

  // ---------------------------------------------------------------------
  // Products and length

  /** The inner product. */
  function Dot(a: Vector, b: Vector): Scalar {
    Scalar(a.x * b.x + a.y * b.y + a.z * b.z)
  }

  /** The right-handed cross product; the result is orthogonal to both
      operands. */
  function Cross(a: Vector, b: Vector): (c: Vector)
    ensures Dot(c, a).value == 0.0
    ensures Dot(c, b).value == 0.0
  {
    Vector(a.y * b.z - a.z * b.y,
           a.z * b.x - a.x * b.z,
           a.x * b.y - a.y * b.x)
  }

  /** The square of a real. */
  function Sq(a: real): real {
    a * a
  }

  /** The square of the Euclidean norm, the radicand of the source's
      magnitude: never negative, and the dot product of v with itself. */
  function MagnitudeSquared(v: Vector): (r: real)
    ensures r >= 0.0
    ensures r == Dot(v, v).value
  {
    SquareFacts(v.x);
    SquareFacts(v.y);
    SquareFacts(v.z);
    Sq(v.x) + Sq(v.y) + Sq(v.z)
  }

  /** The squared magnitude is zero exactly for the zero vector. */
  lemma MagnitudeSquaredZero(v: Vector)
    ensures MagnitudeSquared(v) == 0.0 <==> v == Zero
  {
    SquareFacts(v.x);
    SquareFacts(v.y);
    SquareFacts(v.z);
  }

  /** `m` is the magnitude of `v`: the non-negative square root of v.v. */
  ghost predicate IsMagnitude(v: Vector, m: Scalar) {
    m.value >= 0.0 && Sq(m.value) == MagnitudeSquared(v)
  }

  /** Divide a vector by its magnitude. Dafny has no square root, so the
      caller supplies the magnitude; the zero vector (whose normalization
      is NaN in the source) is excluded. The result has magnitude one and
      scaled back by the magnitude gives the original vector. */
  function Normalize(v: Vector, mag: Scalar): (u: Vector)
    requires IsMagnitude(v, mag) && mag.value != 0.0
    ensures IsMagnitude(u, Scalar(1.0))
    ensures Mul(u, mag) == v
  {
    var m := mag.value;
    var u := Vector(v.x / m, v.y / m, v.z / m);
    DivThenMul(v.x, m);
    DivThenMul(v.y, m);
    DivThenMul(v.z, m);
    UnitAfterScale(u, v, m);
    u
  }

  /** A vector that, scaled by the magnitude `m` of `v`, gives `v` has
      squared magnitude one. */
  lemma UnitAfterScale(u: Vector, v: Vector, m: real)
    requires m > 0.0 && Mul(u, Scalar(m)) == v && Sq(m) == MagnitudeSquared(v)
    ensures MagnitudeSquared(u) == 1.0
  {
    calc {
      Sq(m) * MagnitudeSquared(u);
    == Sq(m) * Sq(u.x) + Sq(m) * Sq(u.y) + Sq(m) * Sq(u.z);
    == { ScaleSquare(u.x, m); ScaleSquare(u.y, m); ScaleSquare(u.z, m); }
      Sq(u.x * m) + Sq(u.y * m) + Sq(u.z * m);
    == MagnitudeSquared(v);
    == Sq(m);
    }
    CancelPositive(Sq(m), MagnitudeSquared(u)) by { SquareFacts(m); }
  }

  // ---------------------------------------------------------------------
  // Arithmetic helpers. The solver's nonlinear real arithmetic is only
  // dependable on small, syntactic steps, so each fact is proved here once
  // and chained with calc.

  lemma MulLess(a: real, b: real, c: real)
    requires a > 0.0 && b < c
    ensures a * b < a * c
  {
  }

  lemma MulAtMost(a: real, b: real, c: real)
    requires a >= 0.0 && b <= c
    ensures a * b <= a * c
  {
  }

  /** A square is never negative, and positive for a nonzero number. */
  lemma SquareFacts(a: real)
    ensures Sq(a) >= 0.0
    ensures a != 0.0 ==> Sq(a) > 0.0
  {
    calc { Sq(a); == a * a; >= 0.0; }
    if a != 0.0 {
      calc { Sq(a); == a * a; > 0.0; }
    }
  }

  lemma DivThenMul(a: real, m: real)
    requires m != 0.0
    ensures (a / m) * m == a
  {
  }

  lemma ScaleSquare(a: real, s: real)
    ensures Sq(a * s) == Sq(s) * Sq(a)
  {
  }

  lemma CancelPositive(c: real, x: real)
    requires c > 0.0 && c * x == c
    ensures x == 1.0
  {
    if x < 1.0 {
      MulLess(c, x, 1.0);
    } else if x > 1.0 {
      MulLess(c, 1.0, x);
    }
  }

  /** For non-negative reals, comparing squares is comparing the numbers. */
  lemma SquareMonotone(a: real, b: real)
    requires a >= 0.0 && b >= 0.0
    ensures a < b <==> Sq(a) < Sq(b)
  {
    if a < b {
      calc {
        Sq(a);
      == a * a;
      <= { MulAtMost(a, a, b); }
        a * b;
      == b * a;
      < { MulLess(b, a, b); }
        b * b;
      == Sq(b);
      }
    } else {
      calc {
        Sq(b);
      == b * b;
      <= { MulAtMost(b, b, a); }
        b * a;
      == a * b;
      <= { MulAtMost(a, b, a); }
        a * a;
      == Sq(a);
      }
    }
  }

  /** Two non-negative reals with the same square are equal. */
  lemma SquareInjective(a: real, b: real)
    requires a >= 0.0 && b >= 0.0 && Sq(a) == Sq(b)
    ensures a == b
  {
    SquareMonotone(a, b);
    SquareMonotone(b, a);
  }
}

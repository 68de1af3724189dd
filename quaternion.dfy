/**
 * Quaternion algebra of the rigid-body code: normalisation, the exponential and logarithmic maps
 * between rotation vectors and quaternions, the angle-axis conversions, rotation of a vector, and
 * the conversions between unit quaternions and rotation matrices.
 */
module Quaternions {

  import opened RealArith
  import opened Transcendental
  import opened Utilities
  import opened Results

  datatype Vector = Vector(x: real, y: real, z: real)

  /** A quaternion `q0 + q1 i + q2 j + q3 k`; `q0` is the scalar part. */
  datatype Quaternion = Quaternion(q0: real, q1: real, q2: real, q3: real)

  /** A 3 by 3 rotation matrix, stored as its three rows. */
  datatype RotationMatrix = RotationMatrix(row0: Vector, row1: Vector, row2: Vector)

  datatype QuaternionError =
    | ZeroLengthQuaternion   // normalising a quaternion whose length is close to zero
    | ZeroLengthVector       // normalising a vector whose length is close to zero
    | NotUnitQuaternion      // rotating with, or converting, a quaternion that is not unit
    | DivisionByZero         // a division by zero whose floating-point result is not finite

  const IdentityQuaternion := Quaternion(1.0, 0.0, 0.0, 0.0)

  function LengthSquared(q: Quaternion): real {
    SumOfSquares(q.q0, q.q1, q.q2, q.q3)
  }

  function SumOfSquares(a: real, b: real, c: real, d: real): real {
    a * a + b * b + c * c + d * d
  }

  /** `Quaternion::Length`. */
  function Length(m: Libm, q: Quaternion): real {
    m.sqrt(LengthSquared(q))
  }

  function VectorLengthSquared(v: Vector): real {
    v.x * v.x + v.y * v.y + v.z * v.z
  }

  /** `Vector::Length`. */
  function VectorLength(m: Libm, v: Vector): real {
    m.sqrt(VectorLengthSquared(v))
  }

  function ScaleVector(v: Vector, k: real): Vector {
    Vector(v.x * k, v.y * k, v.z * k)
  }

  /** `Vector::operator+`. */
  function AddVectors(u: Vector, v: Vector): Vector {
    Vector(u.x + v.x, u.y + v.y, u.z + v.z)
  }

  /** The quaternion with every component divided by `k`. */
  function Divide(q: Quaternion, k: real): (r: Quaternion)
    requires k != 0.0
    ensures LengthSquared(r) == LengthSquared(q) / (k * k)
  {
    DividedSquares(q.q0, q.q1, q.q2, q.q3, k);
    Quaternion(q.q0 / k, q.q1 / k, q.q2 / k, q.q3 / k)
  }

  lemma DividedSquares(a: real, b: real, c: real, d: real, k: real)
    requires k != 0.0
    ensures LengthSquared(Quaternion(a / k, b / k, c / k, d / k))
         == LengthSquared(Quaternion(a, b, c, d)) / (k * k)
  {
    var u := 1.0 / k;
    assert a / k == a * u && b / k == b * u && c / k == c * u && d / k == d * u;
    assert (a * u) * (a * u) + (b * u) * (b * u) + (c * u) * (c * u) + (d * u) * (d * u)
        == (a * a + b * b + c * c + d * d) * (u * u);
    assert u * u == 1.0 / (k * k);
  }

  function Negate(q: Quaternion): Quaternion {
    Quaternion(-q.q0, -q.q1, -q.q2, -q.q3)
  }

  /** The Hamilton product `p * q`. */
  function Multiply(p: Quaternion, q: Quaternion): Quaternion {
    Quaternion(
      p.q0 * q.q0 - p.q1 * q.q1 - p.q2 * q.q2 - p.q3 * q.q3,
      p.q0 * q.q1 + p.q1 * q.q0 + p.q2 * q.q3 - p.q3 * q.q2,
      p.q0 * q.q2 - p.q1 * q.q3 + p.q2 * q.q0 + p.q3 * q.q1,
      p.q0 * q.q3 + p.q1 * q.q2 - p.q2 * q.q1 + p.q3 * q.q0)
  }

  /** The two products the quaternion tests fix. */
  lemma MultiplyExamples()
    ensures Multiply(Quaternion(3.0, 1.0, -2.0, 1.0), Quaternion(2.0, -1.0, 2.0, 3.0))
         == Quaternion(8.0, -9.0, -2.0, 11.0)
    ensures Multiply(Quaternion(1.0, 2.0, 3.0, 4.0), Quaternion(5.0, 6.0, 7.0, 8.0))
         == Quaternion(-60.0, 12.0, 30.0, 24.0)
  {
  }

  /** The identity quaternion is a two-sided unit of the Hamilton product. */
  lemma MultiplyByIdentity(q: Quaternion)
    ensures Multiply(IdentityQuaternion, q) == q && Multiply(q, IdentityQuaternion) == q
  {
  }

  /** The norm is multiplicative: the product of two unit quaternions is a unit quaternion. */
  lemma MultiplyLengthSquared(p: Quaternion, q: Quaternion)
    ensures LengthSquared(Multiply(p, q)) == LengthSquared(p) * LengthSquared(q)
  {
    FourSquares(p.q0, p.q1, p.q2, p.q3, q.q0, q.q1, q.q2, q.q3);
  }

  /** Euler's four-square identity, in the component order of the Hamilton product. */
  lemma FourSquares(a0: real, a1: real, a2: real, a3: real, b0: real, b1: real, b2: real, b3: real)
    ensures var r0, r1 := a0 * b0 - a1 * b1 - a2 * b2 - a3 * b3, a0 * b1 + a1 * b0 + a2 * b3 - a3 * b2;
      var r2, r3 := a0 * b2 - a1 * b3 + a2 * b0 + a3 * b1, a0 * b3 + a1 * b2 - a2 * b1 + a3 * b0;
      SumOfSquares(r0, r1, r2, r3) == SumOfSquares(a0, a1, a2, a3) * SumOfSquares(b0, b1, b2, b3)
  {
  }

  /** `IsUnitQuaternion`: the length is within the tolerance of one. */
  predicate IsUnitQuaternion(m: Libm, q: Quaternion) {
    CloseTo(Length(m, q), 1.0)
  }

  /** A quaternion of exactly unit length passes the unit test. */
  lemma ExactUnitIsUnit(m: Libm, q: Quaternion)
    requires Lawful(m) && LengthSquared(q) == 1.0
    ensures IsUnitQuaternion(m, q)
  {
    SqrtOne(m);
  }

  /** `GetUnitQuaternion`: fails on a null quaternion, keeps a unit one, and divides the rest by their length. */
  function GetUnitQuaternion(m: Libm, q: Quaternion): (r: Result<Quaternion, QuaternionError>)
    ensures r.Err? <==> CloseTo(Length(m, q), 0.0)
    ensures r.Err? ==> r.error == ZeroLengthQuaternion
    ensures IsUnitQuaternion(m, q) ==> r == Ok(q)
    ensures r.Ok? && !IsUnitQuaternion(m, q) ==> r.value == Divide(q, Length(m, q))
  {
    var length := Length(m, q);
    if CloseTo(length, 0.0) then Err(ZeroLengthQuaternion)
    else if CloseTo(length, 1.0) then Ok(q)
    else Ok(Divide(q, length))
  }

  /** Whatever `GetUnitQuaternion` returns has exactly unit length or is the unit input itself. */
  lemma GetUnitQuaternionIsUnit(m: Libm, q: Quaternion)
    requires Lawful(m)
    ensures GetUnitQuaternion(m, q).Ok? ==> IsUnitQuaternion(m, GetUnitQuaternion(m, q).value)
    ensures GetUnitQuaternion(m, q).Ok? && !IsUnitQuaternion(m, q) ==>
      LengthSquared(GetUnitQuaternion(m, q).value) == 1.0
  {
    var length := Length(m, q);
    if !CloseTo(length, 0.0) && !CloseTo(length, 1.0) {
      SqrtOfNonNegative(m, LengthSquared(q));
      var r := Divide(q, length);
      SquareOverItself(length, LengthSquared(q));
      assert LengthSquared(r) == 1.0;
      ExactUnitIsUnit(m, r);
    }
  }

  lemma SquareOverItself(x: real, y: real)
    requires x != 0.0 && x * x == y
    ensures y / (x * x) == 1.0
  {
    if y == 0.0 {
      ZeroProduct(x, x);
    }
  }

  /** Normalising twice is normalising once. */
  lemma GetUnitQuaternionIdempotent(m: Libm, q: Quaternion)
    requires Lawful(m) && GetUnitQuaternion(m, q).Ok?
    ensures GetUnitQuaternion(m, GetUnitQuaternion(m, q).value) == GetUnitQuaternion(m, q)
  {
    GetUnitQuaternionIsUnit(m, q);
  }

  /** `Vector::GetUnitVector`, by analogy with `GetUnitQuaternion`. */
  function GetUnitVector(m: Libm, v: Vector): (r: Result<Vector, QuaternionError>)
    ensures r.Err? <==> CloseTo(VectorLength(m, v), 0.0)
    ensures r.Err? ==> r.error == ZeroLengthVector
    ensures CloseTo(VectorLength(m, v), 1.0) ==> r == Ok(v)
    ensures !CloseTo(VectorLength(m, v), 0.0) && !CloseTo(VectorLength(m, v), 1.0) ==>
      r == Ok(ScaleVector(v, 1.0 / VectorLength(m, v)))
  {
    var length := VectorLength(m, v);
    if CloseTo(length, 0.0) then Err(ZeroLengthVector)
    else if CloseTo(length, 1.0) then Ok(v)
    else Ok(ScaleVector(v, 1.0 / length))
  }

  /** The exponential map `quaternion_from_rotation_vector`: a rotation of angle |v| about v. */
  function QuaternionFromRotationVector(m: Libm, v: Vector): (r: Quaternion)
    ensures CloseTo(VectorLength(m, v), 0.0) ==> r == IdentityQuaternion
    ensures !CloseTo(VectorLength(m, v), 0.0) ==>
      r.q0 == m.cos(VectorLength(m, v) / 2.0) &&
      r == Quaternion(r.q0, v.x * (m.sin(VectorLength(m, v) / 2.0) / VectorLength(m, v)),
                            v.y * (m.sin(VectorLength(m, v) / 2.0) / VectorLength(m, v)),
                            v.z * (m.sin(VectorLength(m, v) / 2.0) / VectorLength(m, v)))
  {
    var angle := VectorLength(m, v);
    if CloseTo(angle, 0.0) then IdentityQuaternion
    else
      var factor := m.sin(angle / 2.0) / angle;
      Quaternion(m.cos(angle / 2.0), v.x * factor, v.y * factor, v.z * factor)
  }

  /** The exponential map yields a quaternion of exactly unit length. */
  lemma QuaternionFromRotationVectorIsUnit(m: Libm, v: Vector)
    requires Lawful(m)
    ensures LengthSquared(QuaternionFromRotationVector(m, v)) == 1.0
  {
    var angle := VectorLength(m, v);
    if !CloseTo(angle, 0.0) {
      SqrtOfNonNegative(m, VectorLengthSquared(v));
      var s, c := m.sin(angle / 2.0), m.cos(angle / 2.0);
      HalfAngleUnit(c, s, angle, v.x, v.y, v.z);
    }
  }

  /** (c, v s/θ) has unit length when |v| = θ and s² + c² = 1. */
  lemma HalfAngleUnit(c: real, s: real, theta: real, x: real, y: real, z: real)
    requires theta != 0.0 && theta * theta == x * x + y * y + z * z && s * s + c * c == 1.0
    ensures c * c + (x * (s / theta)) * (x * (s / theta)) + (y * (s / theta)) * (y * (s / theta))
          + (z * (s / theta)) * (z * (s / theta)) == 1.0
  {
    var f := s / theta;
    assert f * theta == s;
    calc {
      (x * f) * (x * f) + (y * f) * (y * f) + (z * f) * (z * f);
    ==
      (f * f) * (x * x + y * y + z * z);
    ==
      (f * f) * (theta * theta);
    ==
      (f * theta) * (f * theta);
    ==
      s * s;
    }
  }

  /** The logarithmic map `rotation_vector_from_quaternion`. */
  function RotationVectorFromQuaternion(m: Libm, q: Quaternion): (r: Vector)
    requires Lawful(m)
    ensures CloseTo(q.q1 * q.q1 + q.q2 * q.q2 + q.q3 * q.q3, 0.0) ==> r == Vector(0.0, 0.0, 0.0)
    ensures !CloseTo(q.q1 * q.q1 + q.q2 * q.q2 + q.q3 * q.q3, 0.0) ==>
      var s := m.sqrt(q.q1 * q.q1 + q.q2 * q.q2 + q.q3 * q.q3);
      0.0 < s && r == ScaleVector(Vector(q.q1, q.q2, q.q3), 2.0 * m.atan2(s, q.q0) / s)
  {
    var sinAngleSquared := q.q1 * q.q1 + q.q2 * q.q2 + q.q3 * q.q3;
    if CloseTo(sinAngleSquared, 0.0) then Vector(0.0, 0.0, 0.0)
    else
      var sinAngle := m.sqrt(sinAngleSquared);
      SqrtPositive(m, sinAngleSquared);
      var k := 2.0 * m.atan2(sinAngle, q.q0) / sinAngle;
      ScaleVector(Vector(q.q1, q.q2, q.q3), k)
  }

  /**
   * The logarithmic map undoes the exponential map for a rotation vector of length strictly
   * between the tolerance and 2 pi whose half-angle sine is not within the tolerance of zero.
   */
  lemma RotationVectorRoundTrip(m: Libm, v: Vector)
    requires Lawful(m)
    requires !CloseTo(VectorLength(m, v), 0.0) && VectorLength(m, v) < 2.0 * m.pi
    requires !CloseTo(m.sin(VectorLength(m, v) / 2.0) * m.sin(VectorLength(m, v) / 2.0), 0.0)
    ensures RotationVectorFromQuaternion(m, QuaternionFromRotationVector(m, v)) == v
  {
    var theta := VectorLength(m, v);
    assert 0.0 <= theta by {
      SqrtOfNonNegative(m, VectorLengthSquared(v));
    }
    var half := theta / 2.0;
    var s, c := m.sin(half), m.cos(half);
    assert 0.0 < half < m.pi;
    assert 0.0 < s;
    AtanOfSinCos(m, half);
    ExpThenLog(m, v, s, c, half);
  }

  /** The algebraic half of the round trip, once the half-angle facts are known. */
  lemma ExpThenLog(m: Libm, v: Vector, s: real, c: real, half: real)
    requires Lawful(m) && !CloseTo(VectorLength(m, v), 0.0) && half == VectorLength(m, v) / 2.0
    requires s == m.sin(half) && c == m.cos(half) && 0.0 < s && m.atan2(s, c) == half
    requires !CloseTo(s * s, 0.0)
    ensures RotationVectorFromQuaternion(m, QuaternionFromRotationVector(m, v)) == v
  {
    var theta := VectorLength(m, v);
    var w := ScaleVector(v, s / theta);
    ExpComponents(m, v, s, c, half);
    LogOfScaledAxis(m, c, w, s, half);
    LogScale(v, s / theta, theta, s, half);
  }

  /** The exponential map of `v` is (cos(θ/2), v sin(θ/2)/θ), whose vector part has length sin(θ/2). */
  lemma ExpComponents(m: Libm, v: Vector, s: real, c: real, half: real)
    requires Lawful(m) && !CloseTo(VectorLength(m, v), 0.0) && half == VectorLength(m, v) / 2.0
    requires s == m.sin(half) && c == m.cos(half)
    ensures var w := ScaleVector(v, s / VectorLength(m, v));
      QuaternionFromRotationVector(m, v) == Quaternion(c, w.x, w.y, w.z)
    ensures VectorLengthSquared(ScaleVector(v, s / VectorLength(m, v))) == s * s
  {
    var theta := VectorLength(m, v);
    SqrtOfNonNegative(m, VectorLengthSquared(v));
    ScaledSquares(v.x, v.y, v.z, s / theta, theta, s);
  }

  lemma AtanOfSinCos(m: Libm, a: real)
    requires Lawful(m) && 0.0 < a < m.pi
    ensures m.atan2(m.sin(a), m.cos(a)) == a
  {
  }

  lemma LogOfScaledAxis(m: Libm, c: real, w: Vector, s: real, half: real)
    requires Lawful(m) && 0.0 < s && VectorLengthSquared(w) == s * s
    requires !CloseTo(s * s, 0.0) && m.atan2(s, c) == half
    ensures RotationVectorFromQuaternion(m, Quaternion(c, w.x, w.y, w.z)) == ScaleVector(w, 2.0 * half / s)
  {
    var q := Quaternion(c, w.x, w.y, w.z);
    assert q.q1 * q.q1 + q.q2 * q.q2 + q.q3 * q.q3 == s * s;
    assert Vector(q.q1, q.q2, q.q3) == w;
    LogFormula(m, q);
    SqrtOfSquare(m, s);
  }

  lemma LogFormula(m: Libm, q: Quaternion)
    requires Lawful(m)
    requires !CloseTo(q.q1 * q.q1 + q.q2 * q.q2 + q.q3 * q.q3, 0.0)
    ensures var s := m.sqrt(q.q1 * q.q1 + q.q2 * q.q2 + q.q3 * q.q3);
      RotationVectorFromQuaternion(m, q) == ScaleVector(Vector(q.q1, q.q2, q.q3), 2.0 * m.atan2(s, q.q0) / s)
  {
  }

  lemma ScaledSquares(x: real, y: real, z: real, f: real, theta: real, s: real)
    requires theta != 0.0 && theta * theta == x * x + y * y + z * z && f == s / theta
    ensures (x * f) * (x * f) + (y * f) * (y * f) + (z * f) * (z * f) == s * s
  {
    assert f * theta == s;
    calc {
      (x * f) * (x * f) + (y * f) * (y * f) + (z * f) * (z * f);
    ==
      (f * f) * (x * x + y * y + z * z);
    ==
      (f * theta) * (f * theta);
    }
  }

  /** Scaling by sin(θ/2)/θ and then by 2 (θ/2)/sin(θ/2) is the identity. */
  lemma LogScale(v: Vector, f: real, theta: real, s: real, half: real)
    requires theta != 0.0 && s != 0.0 && f == s / theta && half == theta / 2.0
    ensures ScaleVector(ScaleVector(v, f), 2.0 * half / s) == v
  {
    var k := 2.0 * half / s;
    assert k == theta / s;
    assert f * k == 1.0;
    assert (v.x * f) * k == v.x * (f * k);
    assert (v.y * f) * k == v.y * (f * k);
    assert (v.z * f) * k == v.z * (f * k);
  }

  /** `quaternion_from_angle_axis`: (cos(a/2), axis sin(a/2)). */
  function QuaternionFromAngleAxis(m: Libm, angle: real, axis: Vector): (r: Quaternion)
    ensures r.q0 == m.cos(angle / 2.0)
    ensures Vector(r.q1, r.q2, r.q3) == ScaleVector(axis, m.sin(angle / 2.0))
  {
    var sinAngle := m.sin(angle / 2.0);
    Quaternion(m.cos(angle / 2.0), axis.x * sinAngle, axis.y * sinAngle, axis.z * sinAngle)
  }

  /** A unit axis gives a unit quaternion. */
  lemma QuaternionFromAngleAxisIsUnit(m: Libm, angle: real, axis: Vector)
    requires Lawful(m) && VectorLengthSquared(axis) == 1.0
    ensures LengthSquared(QuaternionFromAngleAxis(m, angle, axis)) == 1.0
  {
    var s, c := m.sin(angle / 2.0), m.cos(angle / 2.0);
    assert s * s + c * c == 1.0;
    calc {
      (axis.x * s) * (axis.x * s) + (axis.y * s) * (axis.y * s) + (axis.z * s) * (axis.z * s);
    ==
      (s * s) * VectorLengthSquared(axis);
    ==
      s * s;
    }
  }

  /**
   * `angle_axis_from_quaternion` as the code is written: the zero-rotation test looks at the
   * angle before it is wrapped, so a quaternion whose angle is a whole turn reaches `1 / 0`.
   * There the C++ code produces a non-finite axis, which this model reports as `DivisionByZero`.
   */
  function AngleAxisFromQuaternionAsWritten(m: Libm, q: Quaternion): (r: Result<(real, Vector), QuaternionError>)
    requires Lawful(m)
    ensures var angle := 2.0 * m.atan2(m.sqrt(q.q1 * q.q1 + q.q2 * q.q2 + q.q3 * q.q3), q.q0);
      && (CloseTo(angle, 0.0) ==> r == Ok((0.0, Vector(1.0, 0.0, 0.0))))
      && (r.Ok? && !CloseTo(angle, 0.0) ==>
            r.value.0 == WrapAngleToPi(m.pi, angle) && CloseTo(VectorLength(m, r.value.1), 1.0))
    ensures r.Ok? ==> -m.pi <= r.value.0 <= m.pi
    ensures r.Err? <==> q.q1 == 0.0 && q.q2 == 0.0 && q.q3 == 0.0 && q.q0 < 0.0
    ensures r.Err? ==> r.error == DivisionByZero
  {
    var s := m.sqrt(q.q1 * q.q1 + q.q2 * q.q2 + q.q3 * q.q3);
    var angle := 2.0 * m.atan2(s, q.q0);
    VectorPartNull(m, q);
    if CloseTo(angle, 0.0) then Ok((0.0, Vector(1.0, 0.0, 0.0)))
    else
      var wrapped := WrapAngleToPi(m.pi, angle);
      if s == 0.0 then Err(DivisionByZero)
      else
        UnitAxis(m, q);
        SqrtOne(m);
        Ok((wrapped, GetUnitVector(m, ScaleVector(Vector(q.q1, q.q2, q.q3), 1.0 / s)).value))
  }

  /** The length of the vector part is zero exactly when the vector part is. */
  lemma VectorPartNull(m: Libm, q: Quaternion)
    requires Lawful(m)
    ensures m.sqrt(q.q1 * q.q1 + q.q2 * q.q2 + q.q3 * q.q3) == 0.0 <==> q.q1 == 0.0 && q.q2 == 0.0 && q.q3 == 0.0
  {
    SquareNonNegative(q.q1);
    SquareNonNegative(q.q2);
    SquareNonNegative(q.q3);
    if m.sqrt(q.q1 * q.q1 + q.q2 * q.q2 + q.q3 * q.q3) == 0.0 {
      SqrtZero(m, q.q1 * q.q1 + q.q2 * q.q2 + q.q3 * q.q3);
      SumOfSquaresZero(q.q1, q.q2, q.q3);
    } else if q.q1 == 0.0 && q.q2 == 0.0 && q.q3 == 0.0 {
      SqrtOfSquare(m, 0.0);
    }
  }

  /** The quaternion -1, a whole turn about any axis, is a null rotation the code does not catch. */
  lemma AngleAxisAsWrittenFailsOnWholeTurn(m: Libm)
    requires Lawful(m)
    ensures AngleAxisFromQuaternionAsWritten(m, Quaternion(-1.0, 0.0, 0.0, 0.0)) == Err(DivisionByZero)
  {
    SqrtOfSquare(m, 0.0);
    assert m.sqrt(0.0) == 0.0;
    assert m.atan2(0.0, -1.0) == m.pi;
  }

  /**
   * `angle_axis_from_quaternion` with the zero-rotation test applied to the wrapped angle: every
   * quaternion gives an angle in [-pi, pi] and an axis of unit length.
   */
  function AngleAxisFromQuaternion(m: Libm, q: Quaternion): (r: Result<(real, Vector), QuaternionError>)
    requires Lawful(m)
    ensures r.Ok?
    ensures -m.pi <= r.value.0 <= m.pi
    ensures CloseTo(r.value.0, 0.0) ==> r.value == (0.0, Vector(1.0, 0.0, 0.0))
    ensures CloseTo(VectorLength(m, r.value.1), 1.0)
  {
    var s2 := q.q1 * q.q1 + q.q2 * q.q2 + q.q3 * q.q3;
    var s := m.sqrt(s2);
    var angle := WrapAngleToPi(m.pi, 2.0 * m.atan2(s, q.q0));
    SqrtOne(m);
    if CloseTo(angle, 0.0) then
      assert VectorLength(m, Vector(1.0, 0.0, 0.0)) == 1.0;
      Ok((0.0, Vector(1.0, 0.0, 0.0)))
    else
      NullVectorPartIsNullRotation(m, q);
      var axis := ScaleVector(Vector(q.q1, q.q2, q.q3), 1.0 / s);
      UnitAxis(m, q);
      Ok((angle, GetUnitVector(m, axis).value))
  }

  /** A quaternion with a null vector part has wrapped angle zero. */
  lemma NullVectorPartIsNullRotation(m: Libm, q: Quaternion)
    requires Lawful(m)
    ensures var s := m.sqrt(q.q1 * q.q1 + q.q2 * q.q2 + q.q3 * q.q3);
      s == 0.0 ==> WrapAngleToPi(m.pi, 2.0 * m.atan2(s, q.q0)) == 0.0
  {
    var twoPi := 2.0 * m.pi;
    if q.q0 < 0.0 {
      assert 2.0 * m.atan2(0.0, q.q0) == twoPi;
      FModOfItself(twoPi);
    } else {
      assert 2.0 * m.atan2(0.0, q.q0) == 0.0;
      assert FMod(0.0, twoPi) == 0.0;
    }
  }

  lemma FModOfItself(y: real)
    requires 0.0 < y
    ensures FMod(y, y) == 0.0
  {
    assert y / y == 1.0;
  }

  /** The vector part divided by its length is a unit vector, which `GetUnitVector` keeps. */
  lemma UnitAxis(m: Libm, q: Quaternion)
    requires Lawful(m)
    requires m.sqrt(q.q1 * q.q1 + q.q2 * q.q2 + q.q3 * q.q3) != 0.0
    ensures var s := m.sqrt(q.q1 * q.q1 + q.q2 * q.q2 + q.q3 * q.q3);
      VectorLength(m, ScaleVector(Vector(q.q1, q.q2, q.q3), 1.0 / s)) == 1.0
  {
    var s2 := q.q1 * q.q1 + q.q2 * q.q2 + q.q3 * q.q3;
    SqrtOfNonNegative(m, s2);
    var s := m.sqrt(s2);
    DividedSquares(q.q1, q.q2, q.q3, 0.0, s);
    var u := 1.0 / s;
    assert q.q1 * u == q.q1 / s && q.q2 * u == q.q2 / s && q.q3 * u == q.q3 / s;
    assert VectorLengthSquared(ScaleVector(Vector(q.q1, q.q2, q.q3), u)) == s2 / (s * s) == 1.0;
    SqrtOne(m);
  }

  /** The rotation matrix of a quaternion, as `quaternion_to_rotation_matrix` assembles it. */
  function MatrixOf(q: Quaternion): RotationMatrix {
    MatrixOfComponents(q.q0, q.q1, q.q2, q.q3)
  }

  /** The rotation matrix of the quaternion (q0, q1, q2, q3). */
  function MatrixOfComponents(q0: real, q1: real, q2: real, q3: real): RotationMatrix {
    RotationMatrix(
      Vector(q0 * q0 + q1 * q1 - q2 * q2 - q3 * q3, 2.0 * (q1 * q2 - q0 * q3), 2.0 * (q1 * q3 + q0 * q2)),
      Vector(2.0 * (q1 * q2 + q0 * q3), q0 * q0 - q1 * q1 + q2 * q2 - q3 * q3, 2.0 * (q2 * q3 - q0 * q1)),
      Vector(2.0 * (q1 * q3 - q0 * q2), 2.0 * (q2 * q3 + q0 * q1), q0 * q0 - q1 * q1 - q2 * q2 + q3 * q3))
  }

  function DotVector(u: Vector, v: Vector): real {
    u.x * v.x + u.y * v.y + u.z * v.z
  }

  /** The product of a rotation matrix and a vector. */
  function Apply(R: RotationMatrix, v: Vector): Vector {
    Vector(DotVector(R.row0, v), DotVector(R.row1, v), DotVector(R.row2, v))
  }

  /** `quaternion_to_rotation_matrix`: fails unless the quaternion is unit. */
  function QuaternionToRotationMatrix(m: Libm, q: Quaternion): (r: Result<RotationMatrix, QuaternionError>)
    ensures r.Err? <==> !IsUnitQuaternion(m, q)
    ensures r.Err? ==> r.error == NotUnitQuaternion
    ensures r.Ok? ==> r.value == MatrixOf(q)
  {
    if !IsUnitQuaternion(m, q) then Err(NotUnitQuaternion) else Ok(MatrixOf(q))
  }

  /** `rotate_vector`: fails unless the quaternion is unit; otherwise multiplies by its rotation matrix. */
  function RotateVector(m: Libm, q: Quaternion, v: Vector): (r: Result<Vector, QuaternionError>)
    ensures r.Err? <==> !IsUnitQuaternion(m, q)
    ensures r.Err? ==> r.error == NotUnitQuaternion
    ensures r.Ok? ==> r.value == Apply(MatrixOf(q), v)
  {
    if !IsUnitQuaternion(m, q) then Err(NotUnitQuaternion)
    else
      var q0, q1, q2, q3 := q.q0, q.q1, q.q2, q.q3;
      ApplyMatrixOf(q0, q1, q2, q3, v);
      Ok(Vector(
        (q0 * q0 + q1 * q1 - q2 * q2 - q3 * q3) * v.x + 2.0 * (q1 * q2 - q0 * q3) * v.y
          + 2.0 * (q1 * q3 + q0 * q2) * v.z,
        2.0 * (q1 * q2 + q0 * q3) * v.x + (q0 * q0 - q1 * q1 + q2 * q2 - q3 * q3) * v.y
          + 2.0 * (q2 * q3 - q0 * q1) * v.z,
        2.0 * (q1 * q3 - q0 * q2) * v.x + 2.0 * (q2 * q3 + q0 * q1) * v.y
          + (q0 * q0 - q1 * q1 - q2 * q2 + q3 * q3) * v.z))
  }

  /** The rotation matrix of (q0, q1, q2, q3) applied to `v`, component by component. */
  lemma ApplyMatrixOf(q0: real, q1: real, q2: real, q3: real, v: Vector)
    ensures Apply(MatrixOfComponents(q0, q1, q2, q3), v) == Vector(
      (q0 * q0 + q1 * q1 - q2 * q2 - q3 * q3) * v.x + 2.0 * (q1 * q2 - q0 * q3) * v.y
        + 2.0 * (q1 * q3 + q0 * q2) * v.z,
      2.0 * (q1 * q2 + q0 * q3) * v.x + (q0 * q0 - q1 * q1 + q2 * q2 - q3 * q3) * v.y
        + 2.0 * (q2 * q3 - q0 * q1) * v.z,
      2.0 * (q1 * q3 - q0 * q2) * v.x + 2.0 * (q2 * q3 + q0 * q1) * v.y
        + (q0 * q0 - q1 * q1 - q2 * q2 + q3 * q3) * v.z)
  {
  }

  /** A quaternion and its negation describe the same rotation. */
  lemma MatrixOfNegation(q: Quaternion)
    ensures MatrixOf(Negate(q)) == MatrixOf(q)
  {
    NegatedMatrix(q.q0, q.q1, q.q2, q.q3);
  }

  /** The rotation matrix of (-a, -b, -c, -d) is that of (a, b, c, d). */
  lemma NegatedMatrix(a: real, b: real, c: real, d: real)
    ensures MatrixOfComponents(-a, -b, -c, -d) == MatrixOfComponents(a, b, c, d)
  {
  }

  function Trace(R: RotationMatrix): real {
    R.row0.x + R.row1.y + R.row2.z
  }

  /**
   * `rotation_matrix_to_quaternion` (Shepperd's method): the branch is chosen by the trace and
   * then by the largest diagonal entry, and the component that branch singles out is positive.
   * Every branch takes the square root of a positive number, whatever the matrix.
   */
  function RotationMatrixToQuaternion(m: Libm, R: RotationMatrix): (r: Quaternion)
    requires Lawful(m)
    ensures var m00, m11, m22 := R.row0.x, R.row1.y, R.row2.z;
      if Trace(R) > 0.0 then
        r.q0 == 0.5 * m.sqrt(Trace(R) + 1.0) && 0.0 < r.q0
      else if m00 > m11 && m00 > m22 then
        r.q1 == 0.5 * m.sqrt(1.0 + m00 - m11 - m22) && 0.0 < r.q1
      else if m11 > m22 then
        r.q2 == 0.5 * m.sqrt(1.0 + m11 - m00 - m22) && 0.0 < r.q2
      else
        r.q3 == 0.5 * m.sqrt(1.0 + m22 - m00 - m11) && 0.0 < r.q3
  {
    var m00, m01, m02 := R.row0.x, R.row0.y, R.row0.z;
    var m10, m11, m12 := R.row1.x, R.row1.y, R.row1.z;
    var m20, m21, m22 := R.row2.x, R.row2.y, R.row2.z;
    var trace := m00 + m11 + m22;
    if trace > 0.0 then
      SqrtPositive(m, trace + 1.0);
      var s := 0.5 / m.sqrt(trace + 1.0);
      HalfInverse(m.sqrt(trace + 1.0));
      Quaternion(0.25 / s, (m21 - m12) * s, (m02 - m20) * s, (m10 - m01) * s)
    else if m00 > m11 && m00 > m22 then
      SqrtPositive(m, 1.0 + m00 - m11 - m22);
      var s := 2.0 * m.sqrt(1.0 + m00 - m11 - m22);
      Quaternion((m21 - m12) / s, 0.25 * s, (m01 + m10) / s, (m02 + m20) / s)
    else if m11 > m22 then
      SqrtPositive(m, 1.0 + m11 - m00 - m22);
      var s := 2.0 * m.sqrt(1.0 + m11 - m00 - m22);
      Quaternion((m02 - m20) / s, (m01 + m10) / s, 0.25 * s, (m12 + m21) / s)
    else
      SqrtPositive(m, 1.0 + m22 - m00 - m11);
      var s := 2.0 * m.sqrt(1.0 + m22 - m00 - m11);
      Quaternion((m10 - m01) / s, (m02 + m20) / s, (m12 + m21) / s, 0.25 * s)
  }

  lemma HalfInverse(t: real)
    requires 0.0 < t
    ensures 0.0 < 0.5 / t && 0.25 / (0.5 / t) == 0.5 * t
  {
  }
}

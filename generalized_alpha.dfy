/**
 * The generalized-alpha time integrator of the rigid-body code (Brüls, Cardona and Arnold 2012):
 * parameter validation, the convergence test on a residual, the coordinate update that adds a
 * translation and composes a rotation, the diagonal preconditioners of Bottasso et al. (2008), a
 * specification of one step (predictor, Newton-Raphson corrections, final algorithmic
 * acceleration), and the integrator object whose methods carry out that specification and keep the
 * time stepper's clock and iteration counters.
 */
module GeneralizedAlpha {

  import opened RealArith
  import opened Transcendental
  import opened Utilities
  import opened Results
  import opened Quaternions
  import opened RigidBodyState
  import opened TimeStepping

  /** The bound on the L2 norm of a residual below which a Newton iteration has converged. */
  const kCONVERGENCETOLERANCE: real := 0.000001

  // ---------------------------------------------------------------------------------------------
  // Parameters
  // ---------------------------------------------------------------------------------------------

  datatype Parameters = Parameters(alphaF: real, alphaM: real, beta: real, gamma: real)

  /** The `std::invalid_argument` the constructor throws, one per parameter. */
  datatype IntegratorError = InvalidAlphaF | InvalidAlphaM | InvalidBeta | InvalidGamma

  predicate ValidParameters(p: Parameters) {
    && 0.0 <= p.alphaF <= 1.0
    && 0.0 <= p.alphaM <= 1.0
    && 0.0 <= p.beta <= 0.5
    && 0.0 <= p.gamma <= 1.0
  }

  /** The constructor's checks, in its order: the first parameter out of range is reported. */
  function CheckParameters(p: Parameters): (r: Result<Parameters, IntegratorError>)
    ensures r.Ok? <==> ValidParameters(p)
    ensures r.Ok? ==> r.value == p
    ensures r == Err(InvalidAlphaF) <==> !(0.0 <= p.alphaF <= 1.0)
    ensures r == Err(InvalidAlphaM) <==> 0.0 <= p.alphaF <= 1.0 && !(0.0 <= p.alphaM <= 1.0)
    ensures r == Err(InvalidBeta) <==>
      0.0 <= p.alphaF <= 1.0 && 0.0 <= p.alphaM <= 1.0 && !(0.0 <= p.beta <= 0.5)
    ensures r == Err(InvalidGamma) <==>
      0.0 <= p.alphaF <= 1.0 && 0.0 <= p.alphaM <= 1.0 && 0.0 <= p.beta <= 0.5 &&
      !(0.0 <= p.gamma <= 1.0)
  {
    if p.alphaF < 0.0 || p.alphaF > 1.0 then Err(InvalidAlphaF)
    else if p.alphaM < 0.0 || p.alphaM > 1.0 then Err(InvalidAlphaM)
    else if p.beta < 0.0 || p.beta > 0.5 then Err(InvalidBeta)
    else if p.gamma < 0.0 || p.gamma > 1.0 then Err(InvalidGamma)
    else Ok(p)
  }

  /** The default parameters (alpha_f = alpha_m = 0.5, beta = 0.25, gamma = 0.5). */
  const DefaultParameters := Parameters(0.5, 0.5, 0.25, 0.5)

  /** The constructor's accepted and rejected parameter sets. */
  lemma {:induction false} ParameterExamples()
    ensures CheckParameters(Parameters(1.1, 0.5, 0.25, 0.5)) == Err(InvalidAlphaF)
    ensures CheckParameters(Parameters(0.5, 1.1, 0.25, 0.5)) == Err(InvalidAlphaM)
    ensures CheckParameters(Parameters(0.5, 0.5, 0.75, 0.5)) == Err(InvalidBeta)
    ensures CheckParameters(Parameters(0.5, 0.5, 0.25, 1.1)) == Err(InvalidGamma)
    ensures CheckParameters(DefaultParameters) == Ok(DefaultParameters)
    ensures CheckParameters(Parameters(0.11, 0.29, 0.47, 0.93)) == Ok(Parameters(0.11, 0.29, 0.47, 0.93))
  {
  }

  // ---------------------------------------------------------------------------------------------
  // Convergence of a residual
  // ---------------------------------------------------------------------------------------------

  function Square(x: real): (y: real)
    ensures 0.0 <= y
  {
    x * x
  }

  /** The sum of the squares of the entries, the square of the L2 norm. */
  function SumOfSquaredEntries(r: Vec): (s: real)
    ensures 0.0 <= s
  {
    if |r| == 0 then 0.0 else SumOfSquaredEntries(r[..|r| - 1]) + Square(r[|r| - 1])
  }

  /** `CheckConvergence`: the L2 norm of the residual is below the tolerance. */
  predicate Converged(m: Libm, r: Vec) {
    m.sqrt(SumOfSquaredEntries(r)) < kCONVERGENCETOLERANCE
  }

  /** A residual has converged exactly when its sum of squares is below the squared tolerance. */
  lemma {:induction false} ConvergedIffSquaresBelow(m: Libm, r: Vec)
    requires Lawful(m)
    ensures Converged(m, r) <==>
      SumOfSquaredEntries(r) < kCONVERGENCETOLERANCE * kCONVERGENCETOLERANCE
  {
    SqrtOfSquare(m, kCONVERGENCETOLERANCE);
    SqrtLess(m, SumOfSquaredEntries(r), kCONVERGENCETOLERANCE * kCONVERGENCETOLERANCE);
  }

  function Magnitude(x: real): real {
    if x < 0.0 then -x else x
  }

  /** A number no larger in magnitude than another has a square no larger than the other's. */
  lemma {:induction false} SquareDominated(x: real, y: real)
    requires Magnitude(x) <= Magnitude(y)
    ensures Square(x) <= Square(y)
  {
    assert x * x == Magnitude(x) * Magnitude(x) && y * y == Magnitude(y) * Magnitude(y);
    if Magnitude(x) < Magnitude(y) {
      SquaresOrdered(Magnitude(x), Magnitude(y));
    }
  }

  /** A residual whose entries are each no larger in magnitude has no larger sum of squares. */
  lemma {:induction false} DominatedSquares(t: Vec, r: Vec)
    requires |t| == |r| && forall i :: 0 <= i < |r| ==> Magnitude(t[i]) <= Magnitude(r[i])
    ensures SumOfSquaredEntries(t) <= SumOfSquaredEntries(r)
  {
    if |r| > 0 {
      var n := |r| - 1;
      DominatedSquares(t[..n], r[..n]);
      SquareDominated(t[n], r[n]);
    }
  }

  /** A residual dominated entry by entry by a converged residual has converged too. */
  lemma {:induction false} ConvergedWhenDominated(m: Libm, t: Vec, r: Vec)
    requires Lawful(m) && Converged(m, r)
    requires |t| == |r| && forall i :: 0 <= i < |r| ==> Magnitude(t[i]) <= Magnitude(r[i])
    ensures Converged(m, t)
  {
    ConvergedIffSquaresBelow(m, r);
    ConvergedIffSquaresBelow(m, t);
    DominatedSquares(t, r);
  }

  /** A residual of `n` ones has sum of squares `n`. */
  lemma {:induction false} SquaresOfOnes(n: nat)
    ensures SumOfSquaredEntries(Ones(n)) == n as real
  {
    if n > 0 {
      assert Ones(n)[..n - 1] == Ones(n - 1);
      SquaresOfOnes(n - 1);
    }
  }

  /** The identity residual never converges; an empty residual always does. */
  lemma {:induction false} OnesNeverConverge(m: Libm, n: nat)
    requires Lawful(m)
    ensures Converged(m, Ones(n)) <==> n == 0
  {
    ConvergedIffSquaresBelow(m, Ones(n));
    SquaresOfOnes(n);
  }

  /** The sum of squares of a three-entry residual. */
  lemma {:induction false} SquaresOfThree(a: real, b: real, c: real)
    ensures SumOfSquaredEntries([a, b, c]) == a * a + b * b + c * c
  {
    assert [a, b, c][..2] == [a, b] && [a, b][..1] == [a] && [a][..0] == [];
    assert SumOfSquaredEntries([a]) == a * a;
    assert SumOfSquaredEntries([a, b]) == a * a + b * b;
  }

  /** A residual at a tenth of the tolerance converges; one at ten times it does not. */
  lemma {:induction false} ConvergenceExamples(m: Libm)
    requires Lawful(m)
    ensures var t := kCONVERGENCETOLERANCE;
      Converged(m, [t * 0.1, t * 0.2, t * 0.3]) && !Converged(m, [t * 10.0, t * 20.0, t * 30.0])
  {
    var t := kCONVERGENCETOLERANCE;
    SquaresOfThree(t * 0.1, t * 0.2, t * 0.3);
    SquaresOfThree(t * 10.0, t * 20.0, t * 30.0);
    ConvergedIffSquaresBelow(m, [t * 0.1, t * 0.2, t * 0.3]);
    ConvergedIffSquaresBelow(m, [t * 10.0, t * 20.0, t * 30.0]);
  }

  // ---------------------------------------------------------------------------------------------
  // Generalized coordinates: a position followed by an orientation quaternion
  // ---------------------------------------------------------------------------------------------

  function Position(c: Vec): Vector
    requires 3 <= |c|
  {
    Vector(c[0], c[1], c[2])
  }

  function Orientation(c: Vec): Quaternion
    requires 7 <= |c|
  {
    Quaternion(c[3], c[4], c[5], c[6])
  }

  /**
   * The coordinate and increment sizes `UpdateGeneralizedCoordinates` is defined on: a full
   * rigid-body vector (3 positions and 4 quaternion components, with 6 increments), or a vector
   * of at most three entries, all of them positions, each with its own increment.
   */
  predicate UpdatableShape(coordCount: nat, deltaCount: nat) {
    (coordCount <= 3 && coordCount <= deltaCount) || (coordCount == 7 && 6 <= deltaCount)
  }

  /**
   * `UpdateGeneralizedCoordinates`: a fresh vector of the same size whose position entries are
   * translated by `h` times the first three increments and whose orientation is the old one
   * composed with the rotation by `h` times the last three increments (`UpdatedOrientation`).
   */
  function UpdateGeneralizedCoordinates(m: Libm, h: real, coords: Vec, delta: Vec): (next: Vec)
    requires UpdatableShape(|coords|, |delta|)
    ensures |next| == |coords|
    ensures forall i :: 0 <= i < |coords| && i < 3 ==> next[i] == coords[i] + delta[i] * h
  {
    seq(|coords|, i requires 0 <= i < |coords| => UpdatedCoordinate(m, h, coords, delta, i))
  }

  /** Entry `i` of the updated coordinates: a translated position, or a component of the rotated orientation. */
  function UpdatedCoordinate(m: Libm, h: real, coords: Vec, delta: Vec, i: nat): real
    requires UpdatableShape(|coords|, |delta|) && i < |coords|
  {
    if i < 3 then coords[i] + delta[i] * h
    else
      var q := Multiply(Orientation(coords),
                        QuaternionFromRotationVector(m, ScaleVector(Vector(delta[3], delta[4], delta[5]), h)));
      if i == 3 then q.q0 else if i == 4 then q.q1 else if i == 5 then q.q2 else q.q3
  }

  /** The orientation of a rigid-body vector is composed with the rotation by `h` times the last three increments. */
  lemma {:induction false} UpdatedOrientation(m: Libm, h: real, coords: Vec, delta: Vec)
    requires |coords| == 7 && 6 <= |delta|
    ensures Orientation(UpdateGeneralizedCoordinates(m, h, coords, delta)) ==
      Multiply(Orientation(coords), QuaternionFromRotationVector(m, ScaleVector(Vector(delta[3], delta[4], delta[5]), h)))
  {
    var next := UpdateGeneralizedCoordinates(m, h, coords, delta);
    assert next[3] == UpdatedCoordinate(m, h, coords, delta, 3);
    assert next[4] == UpdatedCoordinate(m, h, coords, delta, 4);
    assert next[5] == UpdatedCoordinate(m, h, coords, delta, 5);
    assert next[6] == UpdatedCoordinate(m, h, coords, delta, 6);
  }

  /** The update rotates the orientation without changing its length: a unit quaternion stays unit. */
  lemma {:induction false} UpdateKeepsOrientationLength(m: Libm, h: real, coords: Vec, delta: Vec)
    requires Lawful(m) && |coords| == 7 && 6 <= |delta|
    ensures LengthSquared(Orientation(UpdateGeneralizedCoordinates(m, h, coords, delta))) ==
            LengthSquared(Orientation(coords))
  {
    var e := QuaternionFromRotationVector(m, ScaleVector(Vector(delta[3], delta[4], delta[5]), h));
    QuaternionFromRotationVectorIsUnit(m, ScaleVector(Vector(delta[3], delta[4], delta[5]), h));
    UpdatedOrientation(m, h, coords, delta);
    MultiplyLengthSquared(Orientation(coords), e);
  }

  /** A zero increment leaves the coordinates as they were. */
  lemma {:induction false} ZeroIncrementKeepsCoordinates(m: Libm, h: real, coords: Vec, delta: Vec)
    requires Lawful(m) && UpdatableShape(|coords|, |delta|)
    requires forall i :: 0 <= i < |delta| ==> delta[i] == 0.0
    ensures UpdateGeneralizedCoordinates(m, h, coords, delta) == coords
  {
    var next := UpdateGeneralizedCoordinates(m, h, coords, delta);
    if |coords| == 7 {
      var v := ScaleVector(Vector(delta[3], delta[4], delta[5]), h);
      assert VectorLengthSquared(v) == 0.0;
      SqrtOfSquare(m, 0.0);
      assert QuaternionFromRotationVector(m, v) == IdentityQuaternion;
      UpdatedOrientation(m, h, coords, delta);
      MultiplyByIdentity(Orientation(coords));
    }
    assert forall i :: 0 <= i < |coords| ==> next[i] == coords[i];
  }

  /** From the identity orientation, the updated orientation is the increment's rotation itself. */
  lemma {:induction false} UpdateFromIdentity(m: Libm, h: real, coords: Vec, delta: Vec)
    requires |coords| == 7 && 6 <= |delta| && Orientation(coords) == IdentityQuaternion
    ensures Orientation(UpdateGeneralizedCoordinates(m, h, coords, delta)) ==
            QuaternionFromRotationVector(m, ScaleVector(Vector(delta[3], delta[4], delta[5]), h))
  {
    UpdatedOrientation(m, h, coords, delta);
    MultiplyByIdentity(QuaternionFromRotationVector(m, ScaleVector(Vector(delta[3], delta[4], delta[5]), h)));
  }

  /**
   * The coordinate update of the unit tests: from position (0, -1, 0) and the identity
   * orientation, a unit step with increments (1, 1, 1, 1, 2, 3).
   */
  lemma {:induction false} UpdateExample(m: Libm, coords: Vec, delta: Vec)
    requires |coords| == 7 && coords[0] == 0.0 && coords[1] == -1.0 && coords[2] == 0.0
    requires Orientation(coords) == IdentityQuaternion
    requires |delta| == 6 && delta[0] == 1.0 && delta[1] == 1.0 && delta[2] == 1.0
    requires delta[3] == 1.0 && delta[4] == 2.0 && delta[5] == 3.0
    ensures var next := UpdateGeneralizedCoordinates(m, 1.0, coords, delta);
      next[0] == 1.0 && next[1] == 0.0 && next[2] == 1.0 &&
      Orientation(next) == QuaternionFromRotationVector(m, Vector(1.0, 2.0, 3.0))
  {
    assert ScaleVector(Vector(delta[3], delta[4], delta[5]), 1.0) == Vector(1.0, 2.0, 3.0);
    UpdateFromIdentity(m, 1.0, coords, delta);
  }

  // ---------------------------------------------------------------------------------------------
  // Preconditioning (Bottasso et al. 2008)
  // ---------------------------------------------------------------------------------------------

  predicate IsDiagonal(D: Mat, n: nat) {
    IsMatrix(D, n, n) && forall i, j :: 0 <= i < n && 0 <= j < n && i != j ==> D[i][j] == 0.0
  }

  /** Row `i` of the diagonal matrix whose `i`-th diagonal entry is `d`, among `n` columns. */
  function DiagonalRow(n: nat, i: nat, d: real): (row: Vec)
    ensures |row| == n && forall j :: 0 <= j < n ==> row[j] == if j == i then d else 0.0
  {
    seq(n, j => if j == i then d else 0.0)
  }

  /** The square matrix with diagonal `d` and zeros elsewhere. */
  function Diagonal(d: Vec): (D: Mat)
    ensures IsDiagonal(D, |d|) && forall i :: 0 <= i < |d| ==> D[i][i] == d[i]
  {
    seq(|d|, i requires 0 <= i < |d| => DiagonalRow(|d|, i, d[i]))
  }

  /**
   * `dl`: zero unless preconditioning; then the identity with `beta h^2` on the rows of the
   * `size` accelerations.
   */
  function LeftPreconditioner(precondition: bool, size: nat, constraints: nat, beta: real, h: real): (dl: Mat)
    ensures IsDiagonal(dl, size + constraints)
    ensures forall i :: 0 <= i < size + constraints ==>
      dl[i][i] == if !precondition then 0.0 else if i < size then beta * h * h else 1.0
  {
    Diagonal(seq(size + constraints, i => if !precondition then 0.0 else if i < size then beta * h * h else 1.0))
  }

  /**
   * `dr`: zero unless preconditioning; then the identity with `1 / (beta h^2)` on the columns of
   * the `constraints` Lagrange multipliers.
   */
  function RightPreconditioner(precondition: bool, size: nat, constraints: nat, beta: real, h: real): (dr: Mat)
    requires precondition ==> beta * h * h != 0.0
    ensures IsDiagonal(dr, size + constraints)
    ensures forall i :: 0 <= i < size + constraints ==>
      dr[i][i] == if !precondition then 0.0 else if i < size then 1.0 else 1.0 / (beta * h * h)
  {
    Diagonal(seq(size + constraints, i => if !precondition then 0.0 else if i < size then 1.0 else 1.0 / (beta * h * h)))
  }

  /** Multiplying by a diagonal matrix on the right scales column `j` by its `j`-th entry. */
  lemma {:induction false} RightDiagonal(A: Mat, dr: Mat, n: nat)
    requires IsMatrix(A, n, n) && IsDiagonal(dr, n)
    ensures var B := MatMul(A, dr, n, n, n);
      forall i, j :: 0 <= i < n && 0 <= j < n ==> B[i][j] == A[i][j] * dr[j][j]
  {
    forall i, j | 0 <= i < n && 0 <= j < n
      ensures MatMul(A, dr, n, n, n)[i][j] == A[i][j] * dr[j][j]
    {
      DotSingleEntry(A[i], Column(dr, n, n, j), j);
    }
  }

  /** Multiplying by a diagonal matrix on the left scales row `i` by its `i`-th entry. */
  lemma {:induction false} LeftDiagonal(dl: Mat, B: Mat, n: nat)
    requires IsDiagonal(dl, n) && IsMatrix(B, n, n)
    ensures var P := MatMul(dl, B, n, n, n);
      forall i, j :: 0 <= i < n && 0 <= j < n ==> P[i][j] == dl[i][i] * B[i][j]
  {
    forall i, j | 0 <= i < n && 0 <= j < n
      ensures MatMul(dl, B, n, n, n)[i][j] == dl[i][i] * B[i][j]
    {
      DotSingleEntry(dl[i], Column(B, n, n, j), i);
    }
  }

  /** Multiplying by diagonal matrices on both sides scales row `i` and column `j` of `A`. */
  lemma {:induction false} DiagonalScaling(dl: Mat, A: Mat, dr: Mat, n: nat)
    requires IsDiagonal(dl, n) && IsMatrix(A, n, n) && IsDiagonal(dr, n)
    ensures var P := MatMul(dl, MatMul(A, dr, n, n, n), n, n, n);
      forall i, j :: 0 <= i < n && 0 <= j < n ==> P[i][j] == dl[i][i] * (A[i][j] * dr[j][j])
  {
    RightDiagonal(A, dr, n);
    LeftDiagonal(dl, MatMul(A, dr, n, n, n), n);
  }

  /**
   * The preconditioned iteration matrix `dl * (A * dr)`: the rows of the accelerations are scaled
   * by `beta h^2`, the columns of the multipliers by `1 / (beta h^2)`, and a multiplier column
   * of an acceleration row keeps its entry.
   */
  lemma {:induction false} PreconditionedEntries(A: Mat, size: nat, constraints: nat, beta: real, h: real)
    requires beta * h * h != 0.0 && IsMatrix(A, size + constraints, size + constraints)
    ensures var n := size + constraints;
      var P := MatMul(LeftPreconditioner(true, size, constraints, beta, h),
                      MatMul(A, RightPreconditioner(true, size, constraints, beta, h), n, n, n), n, n, n);
      forall i, j :: 0 <= i < n && 0 <= j < n ==>
        P[i][j] == (if i < size then beta * h * h else 1.0) *
                   (A[i][j] * (if j < size then 1.0 else 1.0 / (beta * h * h)))
  {
    var dl := LeftPreconditioner(true, size, constraints, beta, h);
    var dr := RightPreconditioner(true, size, constraints, beta, h);
    forall i, j | 0 <= i < size + constraints && 0 <= j < size + constraints {
      DiagonalScalingAt(dl, A, dr, size + constraints, i, j,
                        if i < size then beta * h * h else 1.0,
                        if j < size then 1.0 else 1.0 / (beta * h * h));
    }
  }

  /** Entry (i, j) of `dl * (A * dr)` for diagonal `dl` and `dr` whose entries there are `l` and `r`. */
  lemma {:induction false} DiagonalScalingAt(dl: Mat, A: Mat, dr: Mat, n: nat, i: nat, j: nat, l: real, r: real)
    requires IsDiagonal(dl, n) && IsMatrix(A, n, n) && IsDiagonal(dr, n) && i < n && j < n
    requires dl[i][i] == l && dr[j][j] == r
    ensures MatMul(dl, MatMul(A, dr, n, n, n), n, n, n)[i][j] == l * (A[i][j] * r)
  {
    DiagonalScaling(dl, A, dr, n);
  }

  /** `residuals(i) *= beta h^2` for the first six entries, as the preconditioned solve does. */
  function ScaledResidual(r: Vec, k: real): (s: Vec)
    requires 6 <= |r|
    ensures |s| == |r|
  {
    seq(|r|, i requires 0 <= i < |r| => if i < 6 then r[i] * k else r[i])
  }

  /**
   * For the six accelerations of a rigid body, scaling the first six residual entries is
   * multiplying the residual by the left preconditioner.
   */
  lemma {:induction false} ScaledResidualIsLeftPreconditioned(r: Vec, constraints: nat, beta: real, h: real)
    requires |r| == 6 + constraints
    ensures var dl := LeftPreconditioner(true, 6, constraints, beta, h);
      forall i :: 0 <= i < |r| ==> ScaledResidual(r, beta * h * h)[i] == dl[i][i] * r[i]
  {
  }

  // ---------------------------------------------------------------------------------------------
  // One step, as a specification
  // ---------------------------------------------------------------------------------------------

  /** `ResidualVector`: the residual at (coordinates, velocities, accelerations, multipliers). */
  type ResidualFunction = (Vec, Vec, Vec, Vec) -> Vec

  /**
   * `IterationMatrix`: the iteration matrix at (beta', gamma', coordinates, velocities,
   * multipliers, step size, coordinate increments).
   */
  type IterationMatrixFunction = (real, real, Vec, Vec, Vec, real, Vec) -> Mat

  /** `solve_linear_system`: the solution of the linear system with the given matrix and right-hand side. */
  type LinearSolver = (Mat, Vec) -> Vec

  /** Everything one step holds fixed. */
  datatype Step = Step(
    m: Libm, p: Parameters, h: real, maxIterations: nat, precondition: bool,
    size: nat, constraints: nat,
    residual: ResidualFunction, iterationMatrix: IterationMatrixFunction, solve: LinearSolver)

  /** The divisions of a step are defined: alpha_m != 1, alpha_f != 1, beta != 0, h != 0. */
  predicate NonDegenerate(p: Parameters, h: real) {
    p.alphaF != 1.0 && p.alphaM != 1.0 && p.beta != 0.0 && h != 0.0
  }

  /**
   * What a step needs of its callers: well-defined divisions, a residual of one entry per
   * acceleration and multiplier, a square iteration matrix of that size, a solver that returns
   * one entry per right-hand-side entry, and room for the six entries the preconditioned
   * residual scaling touches.
   */
  ghost predicate Conforming(s: Step) {
    var n := s.size + s.constraints;
    && NonDegenerate(s.p, s.h)
    && (s.precondition ==> 6 <= n)
    && (forall x, v, a, l :: |v| == s.size && |a| == s.size && |l| == s.constraints ==>
          |s.residual(x, v, a, l)| == n)
    && (forall bp, gp, x, v, l, h, d :: |v| == s.size && |l| == s.constraints && |d| == s.size ==>
          IsMatrix(s.iterationMatrix(bp, gp, x, v, l, h, d), n, n))
    && (forall A, b :: |s.solve(A, b)| == |b|)
  }

  function BetaSquaredStep(p: Parameters, h: real): (k: real)
    requires NonDegenerate(p, h)
    ensures k != 0.0
  {
    NonZeroProduct(p.beta, h);
    NonZeroProduct(p.beta * h, h);
    p.beta * h * h
  }

  /** `BETA_PRIME`: (1 - alpha_m) / (h^2 beta (1 - alpha_f)). */
  function BetaPrime(p: Parameters, h: real): (b: real)
    requires NonDegenerate(p, h)
    ensures b * (h * h * p.beta * (1.0 - p.alphaF)) == 1.0 - p.alphaM
  {
    NonZeroProduct(h, h);
    NonZeroProduct(h * h, p.beta);
    NonZeroProduct(h * h * p.beta, 1.0 - p.alphaF);
    (1.0 - p.alphaM) / (h * h * p.beta * (1.0 - p.alphaF))
  }

  /** `GAMMA_PRIME`: gamma / (h beta). */
  function GammaPrime(p: Parameters, h: real): (g: real)
    requires NonDegenerate(p, h)
    ensures g * (h * p.beta) == p.gamma
  {
    NonZeroProduct(h, p.beta);
    p.gamma / (h * p.beta)
  }

  /** The predicted algorithmic acceleration, coordinate increment and velocity of a step. */
  datatype Prediction = Prediction(algoNext: Vec, delta: Vec, velocity: Vec)

  /** `x / d` undoes multiplication by `d`. */
  lemma {:induction false} QuotientTimesDivisor(x: real, d: real)
    requires d != 0.0
    ensures (x / d) * d == x
  {
  }

  /** One predicted algorithmic acceleration: (alpha_f a - alpha_m algo) / (1 - alpha_m). */
  function PredictedEntry(p: Parameters, a: real, algo: real): real
    requires p.alphaM != 1.0
  {
    (p.alphaF * a - p.alphaM * algo) / (1.0 - p.alphaM)
  }

  /** One predicted coordinate increment, from the velocity and the old and new algorithmic accelerations. */
  function DeltaEntry(p: Parameters, h: real, v: real, algo: real, next: real): real {
    v + h * (0.5 - p.beta) * algo + h * p.beta * next
  }

  /** One predicted velocity, from the velocity and the old and new algorithmic accelerations. */
  function VelocityEntry(p: Parameters, h: real, v: real, algo: real, next: real): real {
    v + (h * (1.0 - p.gamma) * algo + h * p.gamma * next)
  }

  /** The new algorithmic accelerations, (alpha_f a - alpha_m algo) / (1 - alpha_m) entry by entry. */
  function PredictedAlgoAcceleration(p: Parameters, a: Vec, algo: Vec): (next: Vec)
    requires p.alphaM != 1.0 && |algo| == |a|
    ensures |next| == |a|
    ensures forall i :: 0 <= i < |a| ==>
      next[i] * (1.0 - p.alphaM) == p.alphaF * a[i] - p.alphaM * algo[i]
  {
    var next := seq(|a|, i requires 0 <= i < |a| => PredictedEntry(p, a[i], algo[i]));
    assert forall i :: 0 <= i < |a| ==>
      next[i] * (1.0 - p.alphaM) == p.alphaF * a[i] - p.alphaM * algo[i] by {
      forall i | 0 <= i < |a|
        ensures next[i] * (1.0 - p.alphaM) == p.alphaF * a[i] - p.alphaM * algo[i]
      {
        QuotientTimesDivisor(p.alphaF * a[i] - p.alphaM * algo[i], 1.0 - p.alphaM);
      }
    }
    next
  }

  /**
   * The linear predictor of Table 1 of Brüls, Cardona and Arnold (2012), entry by entry: the new
   * algorithmic acceleration solves (1 - alpha_m) a_next = alpha_f a - alpha_m algo, and the
   * increment and velocity blend the old and new algorithmic accelerations.
   */
  function Predict(p: Parameters, h: real, v: Vec, a: Vec, algo: Vec): (r: Prediction)
    requires p.alphaM != 1.0 && |a| == |v| && |algo| == |v|
    ensures |r.algoNext| == |r.delta| == |r.velocity| == |v|
    ensures r.algoNext == PredictedAlgoAcceleration(p, a, algo)
    ensures forall i :: 0 <= i < |v| ==>
      r.delta[i] == v[i] + h * (0.5 - p.beta) * algo[i] + h * p.beta * r.algoNext[i]
    ensures forall i :: 0 <= i < |v| ==>
      r.velocity[i] == v[i] + (h * (1.0 - p.gamma) * algo[i] + h * p.gamma * r.algoNext[i])
  {
    var next := PredictedAlgoAcceleration(p, a, algo);
    Prediction(
      next,
      seq(|v|, i requires 0 <= i < |v| => DeltaEntry(p, h, v[i], algo[i], next[i])),
      seq(|v|, i requires 0 <= i < |v| => VelocityEntry(p, h, v[i], algo[i], next[i])))
  }

  /** A body at rest, with no acceleration, is predicted to stay at rest. */
  lemma {:induction false} PredictAtRest(p: Parameters, h: real, n: nat)
    requires p.alphaM != 1.0
    ensures Predict(p, h, Zeros(n), Zeros(n), Zeros(n)) == Prediction(Zeros(n), Zeros(n), Zeros(n))
  {
    var r := Predict(p, h, Zeros(n), Zeros(n), Zeros(n));
    forall i | 0 <= i < n
      ensures r.algoNext[i] == 0.0
    {
      ZeroProduct(r.algoNext[i], 1.0 - p.alphaM);
    }
  }

  /** One entry of `u + k dx`. */
  function ScaledEntry(u: real, dx: real, k: real): real {
    u + k * dx
  }

  /** `u + k dx`, entry by entry. */
  function AddScaled(u: Vec, dx: Vec, k: real): (w: Vec)
    requires |dx| == |u|
    ensures |w| == |u| && forall i :: 0 <= i < |u| ==> w[i] - u[i] == k * dx[i]
  {
    seq(|u|, i requires 0 <= i < |u| => ScaledEntry(u[i], dx[i], k))
  }

  /** `u + dx / h`, entry by entry. */
  function AddDivided(u: Vec, dx: Vec, h: real): (w: Vec)
    requires |dx| == |u| && h != 0.0
    ensures |w| == |u| && forall i :: 0 <= i < |u| ==> (w[i] - u[i]) * h == dx[i]
  {
    seq(|u|, i requires 0 <= i < |u| => u[i] + dx[i] / h)
  }

  /** `delta_x`: the negated first `size` entries of the solution. */
  function Increments(x: Vec, size: nat): (dx: Vec)
    requires size <= |x|
    ensures |dx| == size && forall i :: 0 <= i < size ==> dx[i] + x[i] == 0.0
  {
    seq(size, i requires 0 <= i < size => -x[i])
  }

  /**
   * The multipliers after one correction: each moves by the negated solution entry that follows
   * the `size` increments, divided by `beta h^2` when the system was preconditioned.
   */
  function UpdatedMultipliers(lambda: Vec, x: Vec, size: nat, precondition: bool, k: real): (l: Vec)
    requires size + |lambda| <= |x| && k != 0.0
    ensures |l| == |lambda|
    ensures forall i :: 0 <= i < |lambda| ==>
      (if precondition then (l[i] - lambda[i]) * k else l[i] - lambda[i]) == -x[size + i]
  {
    seq(|lambda|, i requires 0 <= i < |lambda| =>
      lambda[i] + (if precondition then -x[size + i] / k else -x[size + i]))
  }

  /** The unknowns of a Newton-Raphson iteration. */
  datatype Iterate = Iterate(coordsNext: Vec, delta: Vec, velocity: Vec, acceleration: Vec, lambda: Vec)

  predicate Sized(s: Step, coordCount: nat, it: Iterate) {
    && |it.coordsNext| == coordCount && |it.delta| == s.size && |it.velocity| == s.size
    && |it.acceleration| == s.size && |it.lambda| == s.constraints
  }

  /** The system solved in one correction: preconditioned when the step asks for it. */
  function System(s: Step, it: Iterate, r: Vec): (system: (Mat, Vec))
    requires Conforming(s) && |it.delta| == s.size && |it.velocity| == s.size
    requires |it.lambda| == s.constraints && |r| == s.size + s.constraints
    ensures |system.1| == |r|
  {
    var n := s.size + s.constraints;
    var A := s.iterationMatrix(BetaPrime(s.p, s.h), GammaPrime(s.p, s.h), it.coordsNext,
                               it.velocity, it.lambda, s.h, it.delta);
    if s.precondition then
      var k := BetaSquaredStep(s.p, s.h);
      (MatMul(LeftPreconditioner(true, s.size, s.constraints, s.p.beta, s.h),
              MatMul(A, RightPreconditioner(true, s.size, s.constraints, s.p.beta, s.h), n, n, n),
              n, n, n),
       ScaledResidual(r, k))
    else
      (A, r)
  }

  /**
   * One Newton-Raphson correction from the residual `r`: solve for the increments, then move the
   * multipliers, the coordinate increments, the velocities and the accelerations.
   */
  function Correct(s: Step, it: Iterate, r: Vec): (next: Iterate)
    requires Conforming(s) && Sized(s, |it.coordsNext|, it) && |r| == s.size + s.constraints
    ensures Sized(s, |it.coordsNext|, next) && next.coordsNext == it.coordsNext
  {
    var system := System(s, it, r);
    var x := s.solve(system.0, system.1);
    var dx := Increments(x, s.size);
    Iterate(
      it.coordsNext,
      AddDivided(it.delta, dx, s.h),
      AddScaled(it.velocity, dx, GammaPrime(s.p, s.h)),
      AddScaled(it.acceleration, dx, BetaPrime(s.p, s.h)),
      if s.constraints > 0 then UpdatedMultipliers(it.lambda, x, s.size, s.precondition, BetaSquaredStep(s.p, s.h))
      else it.lambda)
  }

  /** How the Newton-Raphson loop ended: the last iterate, the iteration count, and whether it converged. */
  datatype Outcome = Outcome(iterate: Iterate, iterations: nat, converged: bool)

  /**
   * The Newton-Raphson loop from iteration `k`: update the coordinates, stop if the residual has
   * converged, otherwise correct and go on, until `maxIterations` iterations have been made.
   */
  function Newton(s: Step, coords: Vec, k: nat, it: Iterate): (o: Outcome)
    requires Conforming(s) && UpdatableShape(|coords|, s.size) && Sized(s, |coords|, it)
    requires k <= s.maxIterations
    ensures Sized(s, |coords|, o.iterate)
    ensures k <= o.iterations <= s.maxIterations
    ensures o.converged <==> o.iterations < s.maxIterations
    ensures o.iterations == k ==> o.iterate.delta == it.delta && o.iterate.velocity == it.velocity
    decreases s.maxIterations - k, 1
  {
    if k == s.maxIterations then Outcome(it, k, false) else NewtonAttempt(s, coords, k, it)
  }

  /** Iteration `k` of the loop, which is within the budget: stop at the updated iterate if its residual has converged, otherwise correct it and go on. */
  function NewtonAttempt(s: Step, coords: Vec, k: nat, it: Iterate): (o: Outcome)
    requires Conforming(s) && UpdatableShape(|coords|, s.size) && Sized(s, |coords|, it)
    requires k < s.maxIterations
    ensures Sized(s, |coords|, o.iterate)
    ensures k <= o.iterations <= s.maxIterations
    ensures o.converged <==> o.iterations < s.maxIterations
    ensures o.iterations == k ==> o.iterate.delta == it.delta && o.iterate.velocity == it.velocity
    decreases s.maxIterations - k, 0
  {
    var current := it.(coordsNext := UpdateGeneralizedCoordinates(s.m, s.h, coords, it.delta));
    var r := s.residual(current.coordsNext, current.velocity, current.acceleration, current.lambda);
    if Converged(s.m, r) then Outcome(current, k, true)
    else Newton(s, coords, k + 1, Correct(s, current, r))
  }

  /** When the loop reports convergence, the residual at the iterate it returns has converged. */
  lemma {:induction false} NewtonConverged(s: Step, coords: Vec, k: nat, it: Iterate)
    requires Conforming(s) && UpdatableShape(|coords|, s.size) && Sized(s, |coords|, it)
    requires k <= s.maxIterations
    ensures var o := Newton(s, coords, k, it);
      o.converged ==>
        Converged(s.m, s.residual(o.iterate.coordsNext, o.iterate.velocity, o.iterate.acceleration, o.iterate.lambda))
    decreases s.maxIterations - k
  {
    if k < s.maxIterations {
      var current := it.(coordsNext := UpdateGeneralizedCoordinates(s.m, s.h, coords, it.delta));
      var r := s.residual(current.coordsNext, current.velocity, current.acceleration, current.lambda);
      if !Converged(s.m, r) {
        NewtonConverged(s, coords, k + 1, Correct(s, current, r));
      }
    }
  }

  /** Iteration `k` of the loop from `it`: it stops at the updated iterate when the residual has converged, and goes on from the correction otherwise. */
  lemma {:induction false} NewtonAdvances(s: Step, coords: Vec, k: nat, it: Iterate, current: Iterate, r: Vec)
    requires Conforming(s) && UpdatableShape(|coords|, s.size) && Sized(s, |coords|, it)
    requires k < s.maxIterations
    requires current == it.(coordsNext := UpdateGeneralizedCoordinates(s.m, s.h, coords, it.delta))
    requires r == s.residual(current.coordsNext, current.velocity, current.acceleration, current.lambda)
    ensures Sized(s, |coords|, current) && |r| == s.size + s.constraints
    ensures Converged(s.m, r) ==> NewtonFrom(s, coords, k, it) == Outcome(current, k, true)
    ensures !Converged(s.m, r) ==> NewtonFrom(s, coords, k, it) == NewtonFrom(s, coords, k + 1, Correct(s, current, r))
  {
    assert NewtonFrom(s, coords, k, it) == NewtonAttempt(s, coords, k, it);
  }

  /** `Newton` where its shape conditions hold, and the iterate itself, unconverged, elsewhere. */
  ghost function NewtonFrom(s: Step, coords: Vec, k: nat, it: Iterate): Outcome {
    if Conforming(s) && UpdatableShape(|coords|, s.size) && Sized(s, |coords|, it) && k <= s.maxIterations
    then Newton(s, coords, k, it)
    else Outcome(it, k, false)
  }

  /** Where the shape conditions hold, `NewtonFrom` is `Newton`; once the iterations are used up it stops where it is, unconverged. */
  lemma {:induction false} NewtonFromHolds(s: Step, coords: Vec, k: nat, it: Iterate)
    requires Conforming(s) && UpdatableShape(|coords|, s.size) && Sized(s, |coords|, it) && k <= s.maxIterations
    ensures NewtonFrom(s, coords, k, it) == Newton(s, coords, k, it)
    ensures k == s.maxIterations ==> NewtonFrom(s, coords, k, it) == Outcome(it, k, false)
  {
  }

  /** Once the iterations are used up, `NewtonFrom` stops where it is, unconverged. */
  lemma {:induction false} NewtonFromExhausted(s: Step, coords: Vec, k: nat, it: Iterate)
    ensures k == s.maxIterations ==> NewtonFrom(s, coords, k, it) == Outcome(it, k, false)
  {
  }

  /** `k * (d * h)`: a change of the coordinate increments `d`, times the step, scaled by `k`. */
  function Coupling(k: real, d: real, h: real): real {
    k * (d * h)
  }

  lemma {:induction false} CouplingAdds(k: real, d1: real, d2: real, h: real)
    ensures Coupling(k, d1, h) + Coupling(k, d2, h) == Coupling(k, d1 + d2, h)
  {
  }

  /**
   * The Newmark coupling between two iterates: the velocities have moved by gamma' h, and the
   * accelerations by beta' h, times the change of the coordinate increments.
   */
  predicate Coupled(s: Step, from: Iterate, to: Iterate)
    requires NonDegenerate(s.p, s.h)
    requires |from.delta| == |from.velocity| == |from.acceleration| == s.size
    requires |to.delta| == |to.velocity| == |to.acceleration| == s.size
  {
    forall i :: 0 <= i < s.size ==>
      && to.velocity[i] - from.velocity[i] == Coupling(GammaPrime(s.p, s.h), to.delta[i] - from.delta[i], s.h)
      && to.acceleration[i] - from.acceleration[i] == Coupling(BetaPrime(s.p, s.h), to.delta[i] - from.delta[i], s.h)
  }

  /** Every correction keeps the rates coupled to the coordinate increments. */
  lemma {:induction false} CorrectCoupled(s: Step, it: Iterate, r: Vec)
    requires Conforming(s) && Sized(s, |it.coordsNext|, it) && |r| == s.size + s.constraints
    ensures Coupled(s, it, Correct(s, it, r))
  {
    var system := System(s, it, r);
    var dx := Increments(s.solve(system.0, system.1), s.size);
    IncrementsCoupled(s, it, Correct(s, it, r), dx);
  }

  /** An iterate moved by the increments `dx` as a correction moves it is coupled to the one it came from. */
  lemma {:induction false} IncrementsCoupled(s: Step, it: Iterate, next: Iterate, dx: Vec)
    requires NonDegenerate(s.p, s.h)
    requires |it.delta| == |it.velocity| == |it.acceleration| == |dx| == s.size
    requires next.delta == AddDivided(it.delta, dx, s.h)
    requires next.velocity == AddScaled(it.velocity, dx, GammaPrime(s.p, s.h))
    requires next.acceleration == AddScaled(it.acceleration, dx, BetaPrime(s.p, s.h))
    ensures Coupled(s, it, next)
  {
    var g, b := GammaPrime(s.p, s.h), BetaPrime(s.p, s.h);
    forall i | 0 <= i < s.size
      ensures next.velocity[i] - it.velocity[i] == Coupling(g, next.delta[i] - it.delta[i], s.h)
      ensures next.acceleration[i] - it.acceleration[i] == Coupling(b, next.delta[i] - it.delta[i], s.h)
    {
      ScaledIncrement(next.delta[i] - it.delta[i], s.h, dx[i], next.velocity[i] - it.velocity[i], g);
      ScaledIncrement(next.delta[i] - it.delta[i], s.h, dx[i], next.acceleration[i] - it.acceleration[i], b);
    }
  }

  lemma {:induction false} ScaledIncrement(d: real, h: real, e: real, w: real, k: real)
    requires d * h == e && w == k * e
    ensures w == Coupling(k, d, h)
  {
  }

  lemma {:induction false} CoupledTransitive(s: Step, a: Iterate, b: Iterate, c: Iterate)
    requires NonDegenerate(s.p, s.h)
    requires |a.delta| == |a.velocity| == |a.acceleration| == s.size
    requires |b.delta| == |b.velocity| == |b.acceleration| == s.size
    requires |c.delta| == |c.velocity| == |c.acceleration| == s.size
    requires Coupled(s, a, b) && Coupled(s, b, c)
    ensures Coupled(s, a, c)
  {
    forall i | 0 <= i < s.size
      ensures c.velocity[i] - a.velocity[i] == Coupling(GammaPrime(s.p, s.h), c.delta[i] - a.delta[i], s.h)
      ensures c.acceleration[i] - a.acceleration[i] == Coupling(BetaPrime(s.p, s.h), c.delta[i] - a.delta[i], s.h)
    {
      CouplingAdds(GammaPrime(s.p, s.h), b.delta[i] - a.delta[i], c.delta[i] - b.delta[i], s.h);
      CouplingAdds(BetaPrime(s.p, s.h), b.delta[i] - a.delta[i], c.delta[i] - b.delta[i], s.h);
    }
  }

  lemma {:induction false} CoupledToItself(s: Step, a: Iterate, b: Iterate)
    requires NonDegenerate(s.p, s.h)
    requires |a.delta| == |a.velocity| == |a.acceleration| == s.size
    requires b.delta == a.delta && b.velocity == a.velocity && b.acceleration == a.acceleration
    ensures Coupled(s, a, b)
  {
    forall i | 0 <= i < s.size
      ensures b.velocity[i] - a.velocity[i] == Coupling(GammaPrime(s.p, s.h), b.delta[i] - a.delta[i], s.h)
      ensures b.acceleration[i] - a.acceleration[i] == Coupling(BetaPrime(s.p, s.h), b.delta[i] - a.delta[i], s.h)
    {
      assert b.delta[i] - a.delta[i] == 0.0;
      CouplingOfNothing(GammaPrime(s.p, s.h), s.h);
      CouplingOfNothing(BetaPrime(s.p, s.h), s.h);
    }
  }

  lemma {:induction false} CouplingOfNothing(k: real, h: real)
    ensures Coupling(k, 0.0, h) == 0.0
  {
  }

  /** However many corrections the loop makes, the final rates stay coupled to the first. */
  lemma {:induction false} NewtonCoupled(s: Step, coords: Vec, k: nat, it: Iterate)
    requires Conforming(s) && UpdatableShape(|coords|, s.size) && Sized(s, |coords|, it)
    requires k <= s.maxIterations
    ensures Coupled(s, it, Newton(s, coords, k, it).iterate)
    decreases s.maxIterations - k
  {
    if k == s.maxIterations {
      CoupledToItself(s, it, it);
    } else {
      var current := it.(coordsNext := UpdateGeneralizedCoordinates(s.m, s.h, coords, it.delta));
      var r := s.residual(current.coordsNext, current.velocity, current.acceleration, current.lambda);
      CoupledToItself(s, it, current);
      if !Converged(s.m, r) {
        var next := Correct(s, current, r);
        CorrectCoupled(s, current, r);
        NewtonCoupled(s, coords, k + 1, next);
        CoupledTransitive(s, it, current, next);
        CoupledTransitive(s, it, next, Newton(s, coords, k + 1, next).iterate);
      }
    }
  }

  /** What one step returns: the next state, the multipliers, the iteration count and convergence. */
  datatype StepResult = StepResult(state: State, lambda: Vec, iterations: nat, converged: bool)

  /** A state a step can start from: a coordinate vector the update handles and `size` entries per rate. */
  predicate Shaped(state: State, size: nat) {
    && UpdatableShape(|state.coords|, size)
    && |state.velocity| == size && |state.acceleration| == size && |state.algoAcceleration| == size
  }

  /**
   * The algorithmic accelerations after the Newton-Raphson loop: the predicted ones plus
   * (1 - alpha_f) / (1 - alpha_m) times the final accelerations.
   */
  function FinalAlgoAcceleration(p: Parameters, predicted: Vec, acceleration: Vec): (algo: Vec)
    requires p.alphaM != 1.0 && |acceleration| == |predicted|
    ensures |algo| == |predicted|
    ensures forall i :: 0 <= i < |predicted| ==>
      (algo[i] - predicted[i]) * (1.0 - p.alphaM) == (1.0 - p.alphaF) * acceleration[i]
  {
    var factor := (1.0 - p.alphaF) / (1.0 - p.alphaM);
    var algo := AddScaled(predicted, acceleration, factor);
    FactorTimesDivisor(1.0 - p.alphaF, 1.0 - p.alphaM, factor, acceleration, algo, predicted);
    algo
  }

  lemma {:induction false} FactorTimesDivisor(a: real, b: real, f: real, acc: Vec, algo: Vec, pred: Vec)
    requires b != 0.0 && f == a / b && |acc| == |algo| == |pred|
    requires forall i :: 0 <= i < |acc| ==> algo[i] - pred[i] == f * acc[i]
    ensures forall i :: 0 <= i < |acc| ==> (algo[i] - pred[i]) * b == a * acc[i]
  {
    forall i | 0 <= i < |acc|
      ensures (algo[i] - pred[i]) * b == a * acc[i]
    {
      QuotientTimesDivisor(a, b);
      assert (f * acc[i]) * b == (f * b) * acc[i];
    }
  }

  /** The iterate the Newton-Raphson loop starts from: predicted increments and velocities, zero accelerations and multipliers. */
  function StartIterate(s: Step, state: State): (it: Iterate)
    requires Conforming(s) && Shaped(state, s.size)
    ensures Sized(s, |state.coords|, it)
  {
    var pred := Predict(s.p, s.h, state.velocity, state.acceleration, state.algoAcceleration);
    Iterate(Zeros(|state.coords|), pred.delta, pred.velocity, Zeros(s.size), Zeros(s.constraints))
  }

  /**
   * `AlphaStep`: predict, iterate from zero accelerations and multipliers, then correct the
   * predicted algorithmic accelerations by the final accelerations.
   */
  function AlphaStepSpec(s: Step, state: State): (r: StepResult)
    requires Conforming(s) && Shaped(state, s.size)
    ensures Shaped(r.state, s.size) && |r.state.coords| == |state.coords| && |r.lambda| == s.constraints
    ensures r.iterations <= s.maxIterations && (r.converged <==> r.iterations < s.maxIterations)
    ensures r.state.algoAcceleration ==
      FinalAlgoAcceleration(s.p, Predict(s.p, s.h, state.velocity, state.acceleration,
                                         state.algoAcceleration).algoNext, r.state.acceleration)
  {
    var o := Newton(s, state.coords, 0, StartIterate(s, state));
    var pred := Predict(s.p, s.h, state.velocity, state.acceleration, state.algoAcceleration);
    StepResult(State(o.iterate.coordsNext, o.iterate.velocity, o.iterate.acceleration,
                     FinalAlgoAcceleration(s.p, pred.algoNext, o.iterate.acceleration)),
               o.iterate.lambda, o.iterations, o.converged)
  }

  /** When a step reports convergence, the residual at the state and multipliers it returns has converged. */
  lemma {:induction false} AlphaStepConverged(s: Step, state: State)
    requires Conforming(s) && Shaped(state, s.size)
    ensures var r := AlphaStepSpec(s, state);
      r.converged ==> Converged(s.m, s.residual(r.state.coords, r.state.velocity, r.state.acceleration, r.lambda))
  {
    NewtonConverged(s, state.coords, 0, StartIterate(s, state));
  }

  /** `dv * b == g * da`: the changes `dv` and `da` stand in the ratio `g : b`. */
  predicate InRatio(dv: real, da: real, g: real, b: real) {
    dv * b == g * da
  }

  /**
   * The Newmark relation of a step: the final accelerations and the velocity corrections are
   * beta' h and gamma' h times the same coordinate-increment correction, so they stand in the
   * ratio gamma' : beta'.
   */
  lemma {:induction false} AlphaStepNewmark(s: Step, state: State, i: nat)
    requires Conforming(s) && Shaped(state, s.size) && i < s.size
    ensures var r, pred := AlphaStepSpec(s, state), Predict(s.p, s.h, state.velocity, state.acceleration, state.algoAcceleration);
      InRatio(r.state.velocity[i] - pred.velocity[i], r.state.acceleration[i], GammaPrime(s.p, s.h), BetaPrime(s.p, s.h))
  {
    var start := StartIterate(s, state);
    var o := Newton(s, state.coords, 0, start);
    NewtonNewmark(s, state.coords, start, o, i);
    AlphaStepParts(s, state, start, o);
  }

  /** The rates of a step are those the Newton-Raphson loop ends with, started from the prediction. */
  lemma {:induction false} AlphaStepParts(s: Step, state: State, start: Iterate, o: Outcome)
    requires Conforming(s) && Shaped(state, s.size)
    requires start == StartIterate(s, state) && o == Newton(s, state.coords, 0, start)
    ensures var r := AlphaStepSpec(s, state);
      && r.state.velocity == o.iterate.velocity && r.state.acceleration == o.iterate.acceleration
      && start.velocity == Predict(s.p, s.h, state.velocity, state.acceleration, state.algoAcceleration).velocity
  {
  }

  /** From zero accelerations, the loop's velocity corrections and final accelerations stand in the ratio gamma' : beta'. */
  lemma {:induction false} NewtonNewmark(s: Step, coords: Vec, start: Iterate, o: Outcome, i: nat)
    requires Conforming(s) && UpdatableShape(|coords|, s.size) && Sized(s, |coords|, start)
    requires start.acceleration == Zeros(s.size) && i < s.size
    requires o == Newton(s, coords, 0, start)
    ensures InRatio(o.iterate.velocity[i] - start.velocity[i], o.iterate.acceleration[i], GammaPrime(s.p, s.h), BetaPrime(s.p, s.h))
  {
    NewtonCoupled(s, coords, 0, start);
    CoupledFromRest(s, start, o.iterate, i);
  }

  /** From zero accelerations, coupled velocity changes and accelerations stand in the ratio gamma' : beta'. */
  lemma {:induction false} CoupledFromRest(s: Step, a: Iterate, c: Iterate, i: nat)
    requires NonDegenerate(s.p, s.h)
    requires |a.delta| == |a.velocity| == s.size && a.acceleration == Zeros(s.size)
    requires |c.delta| == |c.velocity| == |c.acceleration| == s.size
    requires Coupled(s, a, c) && i < s.size
    ensures InRatio(c.velocity[i] - a.velocity[i], c.acceleration[i], GammaPrime(s.p, s.h), BetaPrime(s.p, s.h))
  {
    assert a.acceleration[i] == 0.0;
    SameCorrection(c.velocity[i] - a.velocity[i], c.acceleration[i],
                   GammaPrime(s.p, s.h), BetaPrime(s.p, s.h), c.delta[i] - a.delta[i], s.h);
  }

  /** Coupled rates change in the ratio gamma' : beta'. */
  lemma {:induction false} CoupledRatio(s: Step, a: Iterate, c: Iterate)
    requires NonDegenerate(s.p, s.h)
    requires |a.delta| == |a.velocity| == |a.acceleration| == s.size
    requires |c.delta| == |c.velocity| == |c.acceleration| == s.size
    requires Coupled(s, a, c)
    ensures forall i :: 0 <= i < s.size ==>
      InRatio(c.velocity[i] - a.velocity[i], c.acceleration[i] - a.acceleration[i], GammaPrime(s.p, s.h), BetaPrime(s.p, s.h))
  {
    forall i | 0 <= i < s.size
      ensures InRatio(c.velocity[i] - a.velocity[i], c.acceleration[i] - a.acceleration[i], GammaPrime(s.p, s.h), BetaPrime(s.p, s.h))
    {
      SameCorrection(c.velocity[i] - a.velocity[i], c.acceleration[i] - a.acceleration[i],
                     GammaPrime(s.p, s.h), BetaPrime(s.p, s.h), c.delta[i] - a.delta[i], s.h);
    }
  }

  lemma {:induction false} SameCorrection(dv: real, da: real, g: real, b: real, d: real, h: real)
    requires dv == Coupling(g, d, h) && da == Coupling(b, d, h)
    ensures InRatio(dv, da, g, b)
  {
  }

  // ---------------------------------------------------------------------------------------------
  // The identity stand-ins and the unit-test scenarios
  // ---------------------------------------------------------------------------------------------

  /** `create_identity_residual_vector`: a residual of ones, one per acceleration and multiplier. */
  function IdentityResidual(coords: Vec, velocity: Vec, acceleration: Vec, lambda: Vec): (r: Vec)
    ensures |r| == |acceleration| + |lambda| && forall i :: 0 <= i < |r| ==> r[i] == 1.0
  {
    Ones(|acceleration| + |lambda|)
  }

  /** `create_identity_iteration_matrix`: the identity, one row per velocity and multiplier. */
  function IdentityIterationMatrix(betaPrime: real, gammaPrime: real, coords: Vec, velocity: Vec,
                                   lambda: Vec, h: real, delta: Vec): (A: Mat)
    ensures IsMatrix(A, |velocity| + |lambda|, |velocity| + |lambda|)
    ensures forall i, j :: 0 <= i < |A| && 0 <= j < |A| ==> A[i][j] == if i == j then 1.0 else 0.0
  {
    Identity(|velocity| + |lambda|)
  }

  /** With the identity stand-ins, any step with well-defined divisions and a size-keeping solver conforms. */
  lemma {:induction false} IdentityStandInsConform(s: Step)
    requires NonDegenerate(s.p, s.h) && (s.precondition ==> 6 <= s.size + s.constraints)
    requires s.residual == IdentityResidual && s.iterationMatrix == IdentityIterationMatrix
    requires forall A, b :: |s.solve(A, b)| == |b|
    ensures Conforming(s)
  {
  }

  /**
   * The identity residual never converges, so a step that uses it always makes every allowed
   * iteration and reports non-convergence.
   */
  lemma {:induction false} IdentityResidualNeverConverges(s: Step, state: State)
    requires Lawful(s.m) && Conforming(s) && Shaped(state, s.size)
    requires s.residual == IdentityResidual && 0 < s.size + s.constraints
    ensures AlphaStepSpec(s, state).iterations == s.maxIterations
    ensures !AlphaStepSpec(s, state).converged
  {
    var r := AlphaStepSpec(s, state);
    AlphaStepConverged(s, state);
    OnesNeverConverge(s.m, s.size + s.constraints);
    assert IdentityResidual(r.state.coords, r.state.velocity, r.state.acceleration, r.lambda) ==
           Ones(s.size + s.constraints);
  }

  /** The step of the unit tests: alpha_f = alpha_m = 0, beta = 0.5, gamma = 1, h = 1, identity stand-ins. */
  function TestStep(m: Libm, maxIterations: nat, size: nat, constraints: nat, solve: LinearSolver): Step {
    Step(m, Parameters(0.0, 0.0, 0.5, 1.0), 1.0, maxIterations, false, size, constraints,
         IdentityResidual, IdentityIterationMatrix, solve)
  }

  /** A solver that keeps sizes and solves the identity system with a right-hand side of ones. */
  ghost predicate SolvesIdentity(solve: LinearSolver, n: nat) {
    (forall A, b :: |solve(A, b)| == |b|) && solve(Identity(n), Ones(n)) == Ones(n)
  }

  /**
   * One correction of the test step: every increment is -1, so the coordinate increments and
   * multipliers drop by 1 and the velocities and accelerations by beta' = gamma' = 2.
   */
  lemma {:induction false} TestCorrection(m: Libm, maxIterations: nat, size: nat, constraints: nat, solve: LinearSolver, it: Iterate)
    requires SolvesIdentity(solve, size + constraints)
    requires Sized(TestStep(m, maxIterations, size, constraints, solve), |it.coordsNext|, it)
    ensures var s := TestStep(m, maxIterations, size, constraints, solve);
      Conforming(s) &&
      var next := Correct(s, it, Ones(size + constraints));
      && next.coordsNext == it.coordsNext
      && (forall i :: 0 <= i < size ==> next.delta[i] == it.delta[i] - 1.0)
      && (forall i :: 0 <= i < size ==> next.velocity[i] == it.velocity[i] - 2.0)
      && (forall i :: 0 <= i < size ==> next.acceleration[i] == it.acceleration[i] - 2.0)
      && (forall i :: 0 <= i < constraints ==> next.lambda[i] == it.lambda[i] - 1.0)
  {
    var s := TestStep(m, maxIterations, size, constraints, solve);
    IdentityStandInsConform(s);
    var n := size + constraints;
    var b, g := BetaPrime(s.p, s.h), GammaPrime(s.p, s.h);
    assert b == 2.0 && g == 2.0;
    var system := System(s, it, Ones(n));
    assert system == (Identity(n), Ones(n));
    var x := s.solve(system.0, system.1);
    assert x == Ones(n);
    var next := Correct(s, it, Ones(n));
    var dx := Increments(x, size);
    assert forall i :: 0 <= i < size ==> dx[i] == -1.0;
  }

  /** With the identity residual, an iteration of the test step never stops and always corrects. */
  lemma {:induction false} TestIteration(m: Libm, maxIterations: nat, size: nat, constraints: nat, solve: LinearSolver,
                      coords: Vec, k: nat, it: Iterate)
    requires Lawful(m) && SolvesIdentity(solve, size + constraints) && 0 < size + constraints
    requires UpdatableShape(|coords|, size) && k < maxIterations
    requires Sized(TestStep(m, maxIterations, size, constraints, solve), |coords|, it)
    ensures var s := TestStep(m, maxIterations, size, constraints, solve);
      Conforming(s) &&
      var current := it.(coordsNext := UpdateGeneralizedCoordinates(m, 1.0, coords, it.delta));
      Newton(s, coords, k, it) == Newton(s, coords, k + 1, Correct(s, current, Ones(size + constraints)))
  {
    var s := TestStep(m, maxIterations, size, constraints, solve);
    IdentityStandInsConform(s);
    var current := it.(coordsNext := UpdateGeneralizedCoordinates(m, 1.0, coords, it.delta));
    var r := s.residual(current.coordsNext, current.velocity, current.acceleration, current.lambda);
    assert r == Ones(size + constraints);
    OnesNeverConverge(m, size + constraints);
    assert !Converged(m, r);
  }

  /** One step of one iteration from rest, as the unit test computes it by hand. */
  lemma {:induction false} OneIterationFromRest(m: Libm, solve: LinearSolver)
    requires Lawful(m) && SolvesIdentity(solve, 1)
    ensures var r := AlphaStepSpec(TestStep(m, 1, 1, 0, solve), DefaultState());
      && r.iterations == 1 && !r.converged
      && r.state.coords == [0.0] && r.state.velocity == [-2.0]
      && r.state.acceleration == [-2.0] && r.state.algoAcceleration == [-2.0]
  {
    var s := TestStep(m, 1, 1, 0, solve);
    IdentityStandInsConform(s);
    var state := DefaultState();
    PredictAtRest(s.p, s.h, 1);
    var start := StartIterate(s, state);
    assert start == Iterate(Zeros(1), Zeros(1), Zeros(1), Zeros(1), Zeros(0));
    var current := start.(coordsNext := UpdateGeneralizedCoordinates(m, 1.0, state.coords, start.delta));
    assert current.coordsNext == [0.0];
    TestIteration(m, 1, 1, 0, solve, state.coords, 0, start);
    TestCorrection(m, 1, 1, 0, solve, current);
    var next := Correct(s, current, Ones(1));
    assert Newton(s, state.coords, 0, start) == Outcome(next, 1, false);
    assert next.velocity == [-2.0] && next.acceleration == [-2.0];
  }

  /** The second iteration from rest: starting from increment -1, the correction ends at coordinates -1 and stops. */
  lemma {:induction false} SecondIterationFromRest(m: Libm, solve: LinearSolver, once: Iterate)
    requires Lawful(m) && SolvesIdentity(solve, 1)
    requires once == Iterate([0.0], [-1.0], [-2.0], [-2.0], Zeros(0))
    ensures var s := TestStep(m, 2, 1, 0, solve);
      Conforming(s) &&
      var o := Newton(s, Zeros(1), 1, once);
      && o.iterations == 2 && !o.converged
      && o.iterate.coordsNext == [-1.0] && o.iterate.velocity == [-4.0] && o.iterate.acceleration == [-4.0]
  {
    var s := TestStep(m, 2, 1, 0, solve);
    IdentityStandInsConform(s);
    var coords := Zeros(1);
    var second := once.(coordsNext := UpdateGeneralizedCoordinates(m, 1.0, coords, once.delta));
    assert second.coordsNext == [-1.0];
    TestIteration(m, 2, 1, 0, solve, coords, 1, once);
    TestCorrection(m, 2, 1, 0, solve, second);
    var twice := Correct(s, second, Ones(1));
    assert Newton(s, coords, 2, twice) == Outcome(twice, 2, false);
    assert twice.velocity == [-4.0] && twice.acceleration == [-4.0];
  }

  /** The first correction from rest: increment -1, velocity and acceleration -2, coordinates still 0. */
  lemma {:induction false} FirstCorrectionFromRest(m: Libm, solve: LinearSolver, first: Iterate)
    requires Lawful(m) && SolvesIdentity(solve, 1)
    requires first == Iterate([0.0], Zeros(1), Zeros(1), Zeros(1), Zeros(0))
    ensures var s := TestStep(m, 2, 1, 0, solve);
      Conforming(s) && Correct(s, first, Ones(1)) == Iterate([0.0], [-1.0], [-2.0], [-2.0], Zeros(0))
  {
    var s := TestStep(m, 2, 1, 0, solve);
    TestCorrection(m, 2, 1, 0, solve, first);
    var once := Correct(s, first, Ones(1));
    assert once.delta == [-1.0] && once.velocity == [-2.0] && once.acceleration == [-2.0];
  }

  /** The first iteration from rest with room for a second: it corrects the increment to -1 and goes on. */
  lemma {:induction false} FirstIterationFromRest(m: Libm, solve: LinearSolver)
    requires Lawful(m) && SolvesIdentity(solve, 1)
    ensures var s := TestStep(m, 2, 1, 0, solve);
      Conforming(s) &&
      Newton(s, Zeros(1), 0, Iterate(Zeros(1), Zeros(1), Zeros(1), Zeros(1), Zeros(0)))
        == Newton(s, Zeros(1), 1, Iterate([0.0], [-1.0], [-2.0], [-2.0], Zeros(0)))
  {
    var start := Iterate(Zeros(1), Zeros(1), Zeros(1), Zeros(1), Zeros(0));
    var first := start.(coordsNext := UpdateGeneralizedCoordinates(m, 1.0, Zeros(1), start.delta));
    assert first.coordsNext == [0.0];
    TestIteration(m, 2, 1, 0, solve, Zeros(1), 0, start);
    FirstCorrectionFromRest(m, solve, first);
  }

  /** The Newton-Raphson loop of two iterations from rest: the second correction starts from coordinates -1. */
  lemma {:induction false} TwoIterationsFromRestNewton(m: Libm, solve: LinearSolver)
    requires Lawful(m) && SolvesIdentity(solve, 1)
    ensures var s := TestStep(m, 2, 1, 0, solve);
      Conforming(s) &&
      var o := Newton(s, Zeros(1), 0, Iterate(Zeros(1), Zeros(1), Zeros(1), Zeros(1), Zeros(0)));
      && o.iterations == 2 && !o.converged
      && o.iterate.coordsNext == [-1.0] && o.iterate.velocity == [-4.0] && o.iterate.acceleration == [-4.0]
  {
    FirstIterationFromRest(m, solve);
    SecondIterationFromRest(m, solve, Iterate([0.0], [-1.0], [-2.0], [-2.0], Zeros(0)));
  }

  /** One step of two iterations from rest, as the unit test computes it by hand. */
  lemma {:induction false} TwoIterationsFromRest(m: Libm, solve: LinearSolver)
    requires Lawful(m) && SolvesIdentity(solve, 1)
    ensures var r := AlphaStepSpec(TestStep(m, 2, 1, 0, solve), DefaultState());
      && r.iterations == 2 && !r.converged
      && r.state.coords == [-1.0] && r.state.velocity == [-4.0]
      && r.state.acceleration == [-4.0] && r.state.algoAcceleration == [-4.0]
  {
    var s := TestStep(m, 2, 1, 0, solve);
    IdentityStandInsConform(s);
    var state := DefaultState();
    PredictAtRest(s.p, s.h, 1);
    assert StartIterate(s, state) == Iterate(Zeros(1), Zeros(1), Zeros(1), Zeros(1), Zeros(0));
    TwoIterationsFromRestNewton(m, solve);
    var r := AlphaStepSpec(s, state);
    assert r.state.acceleration == [-4.0];
    assert r.state.algoAcceleration[0] == -4.0;
  }

  /** The iterate the motion scenario starts from: no predicted acceleration, so increments and velocities stay (1, 2, 3). */
  lemma {:induction false} MotionStart(m: Libm, constraints: nat, solve: LinearSolver)
    requires SolvesIdentity(solve, 3 + constraints)
    ensures var v := [1.0, 2.0, 3.0];
      var s := TestStep(m, 1, 3, constraints, solve);
      Conforming(s) &&
      StartIterate(s, State(v, v, v, v)) == Iterate(Zeros(3), v, v, Zeros(3), Zeros(constraints))
  {
    var s := TestStep(m, 1, 3, constraints, solve);
    IdentityStandInsConform(s);
    var v := [1.0, 2.0, 3.0];
    var pred := Predict(s.p, s.h, v, v, v);
    assert pred.algoNext == Zeros(3);
    assert pred.delta == v && pred.velocity == v;
  }

  /** The correction of the motion scenario's single iteration, from the coordinates (2, 4, 6) the update gives. */
  lemma {:induction false} MotionCorrection(m: Libm, constraints: nat, solve: LinearSolver)
    requires SolvesIdentity(solve, 3 + constraints)
    ensures var v := [1.0, 2.0, 3.0];
      var s := TestStep(m, 1, 3, constraints, solve);
      Conforming(s) &&
      var next := Correct(s, Iterate([2.0, 4.0, 6.0], v, v, Zeros(3), Zeros(constraints)), Ones(3 + constraints));
      && next.coordsNext == [2.0, 4.0, 6.0] && next.velocity == [-1.0, 0.0, 1.0]
      && next.acceleration == [-2.0, -2.0, -2.0]
      && forall i :: 0 <= i < constraints ==> next.lambda[i] == -1.0
  {
    var s := TestStep(m, 1, 3, constraints, solve);
    var v := [1.0, 2.0, 3.0];
    var current := Iterate([2.0, 4.0, 6.0], v, v, Zeros(3), Zeros(constraints));
    TestCorrection(m, 1, 3, constraints, solve, current);
    var next := Correct(s, current, Ones(3 + constraints));
    assert |next.velocity| == 3 && |next.acceleration| == 3;
    assert next.velocity[0] == -1.0 && next.velocity[1] == 0.0 && next.velocity[2] == 1.0;
    assert next.velocity == [-1.0, 0.0, 1.0];
    assert next.acceleration == [-2.0, -2.0, -2.0];
  }

  /** The single iteration of the motion scenario: coordinates move by the increments, then one correction. */
  lemma {:induction false} MotionNewton(m: Libm, constraints: nat, solve: LinearSolver)
    requires Lawful(m) && SolvesIdentity(solve, 3 + constraints)
    ensures var v := [1.0, 2.0, 3.0];
      var s := TestStep(m, 1, 3, constraints, solve);
      Conforming(s) &&
      var o := Newton(s, v, 0, Iterate(Zeros(3), v, v, Zeros(3), Zeros(constraints)));
      && o.iterations == 1 && !o.converged
      && o.iterate.coordsNext == [2.0, 4.0, 6.0] && o.iterate.velocity == [-1.0, 0.0, 1.0]
      && o.iterate.acceleration == [-2.0, -2.0, -2.0]
      && forall i :: 0 <= i < constraints ==> o.iterate.lambda[i] == -1.0
  {
    var s := TestStep(m, 1, 3, constraints, solve);
    IdentityStandInsConform(s);
    var v := [1.0, 2.0, 3.0];
    var start := Iterate(Zeros(3), v, v, Zeros(3), Zeros(constraints));
    var current := start.(coordsNext := UpdateGeneralizedCoordinates(m, 1.0, v, v));
    assert current.coordsNext == [2.0, 4.0, 6.0];
    TestIteration(m, 1, 3, constraints, solve, v, 0, start);
    MotionCorrection(m, constraints, solve);
    var next := Correct(s, current, Ones(3 + constraints));
    assert Newton(s, v, 1, next) == Outcome(next, 1, false);
  }

  /**
   * One step of one iteration from coordinates, velocities and accelerations (1, 2, 3), with any
   * number of multipliers, as the unit test computes it by hand.
   */
  lemma {:induction false} OneIterationFromMotion(m: Libm, constraints: nat, solve: LinearSolver)
    requires Lawful(m) && SolvesIdentity(solve, 3 + constraints)
    ensures var v := [1.0, 2.0, 3.0];
      var r := AlphaStepSpec(TestStep(m, 1, 3, constraints, solve), State(v, v, v, v));
      && r.iterations == 1 && !r.converged
      && r.state.coords == [2.0, 4.0, 6.0] && r.state.velocity == [-1.0, 0.0, 1.0]
      && r.state.acceleration == [-2.0, -2.0, -2.0] && r.state.algoAcceleration == [-2.0, -2.0, -2.0]
      && forall i :: 0 <= i < constraints ==> r.lambda[i] == -1.0
  {
    var v := [1.0, 2.0, 3.0];
    var s := TestStep(m, 1, 3, constraints, solve);
    MotionStart(m, constraints, solve);
    MotionNewton(m, constraints, solve);
    var pred := Predict(s.p, s.h, v, v, v);
    assert pred.algoNext == Zeros(3);
    var r := AlphaStepSpec(s, State(v, v, v, v));
    assert r.state.algoAcceleration == [-2.0, -2.0, -2.0];
  }

  // ---------------------------------------------------------------------------------------------
  // The loops of `AlphaStep`, each proved against the function that specifies it
  // ---------------------------------------------------------------------------------------------

  /** The predictor loop: one pass over the degrees of freedom fills the three predicted vectors. */
  method Predictor(p: Parameters, h: real, velocity: Vec, acceleration: Vec, algo: Vec)
    returns (algoNext: Vec, delta: Vec, velocityNext: Vec)
    requires p.alphaM != 1.0 && |acceleration| == |velocity| && |algo| == |velocity|
    ensures Prediction(algoNext, delta, velocityNext) == Predict(p, h, velocity, acceleration, algo)
  {
    var n := |velocity|;
    algoNext, delta, velocityNext := Zeros(n), Zeros(n), velocity;
    for i := 0 to n
      invariant |algoNext| == |delta| == |velocityNext| == n
      invariant forall j :: 0 <= j < i ==> algoNext[j] == PredictedEntry(p, acceleration[j], algo[j])
      invariant forall j :: 0 <= j < i ==> delta[j] == DeltaEntry(p, h, velocity[j], algo[j], algoNext[j])
      invariant forall j :: 0 <= j < i ==> velocityNext[j] == VelocityEntry(p, h, velocity[j], algo[j], algoNext[j])
    {
      var a := PredictedEntry(p, acceleration[i], algo[i]);
      algoNext := algoNext[i := a];
      delta := delta[i := DeltaEntry(p, h, velocity[i], algo[i], a)];
      velocityNext := velocityNext[i := VelocityEntry(p, h, velocity[i], algo[i], a)];
    }
    assert algoNext == PredictedAlgoAcceleration(p, acceleration, algo);
    var r := Predict(p, h, velocity, acceleration, algo);
    assert delta == r.delta;
    assert velocityNext == r.velocity;
  }

  /** The loop that negates the first `size` entries of the solution into `delta_x`. */
  method NegatedIncrements(x: Vec, size: nat) returns (dx: Vec)
    requires size <= |x|
    ensures dx == Increments(x, size)
  {
    dx := Zeros(size);
    for i := 0 to size
      invariant |dx| == size && forall j :: 0 <= j < i ==> dx[j] == -x[j]
    {
      dx := dx[i := -x[i]];
    }
  }

  /** The loop that moves each multiplier by its negated solution entry, scaled back when preconditioned. */
  method ShiftMultipliers(lambda: Vec, x: Vec, size: nat, precondition: bool, k: real) returns (l: Vec)
    requires size + |lambda| <= |x| && k != 0.0
    ensures l == UpdatedMultipliers(lambda, x, size, precondition, k)
  {
    l := lambda;
    for i := 0 to |lambda|
      invariant |l| == |lambda|
      invariant forall j :: 0 <= j < i ==>
        l[j] == lambda[j] + (if precondition then -x[size + j] / k else -x[size + j])
      invariant forall j :: i <= j < |lambda| ==> l[j] == lambda[j]
    {
      var shift := if precondition then -x[size + i] / k else -x[size + i];
      l := l[i := l[i] + shift];
    }
  }

  /** The loop that applies the increments to the coordinate increments, velocities and accelerations. */
  method ApplyIncrements(delta: Vec, velocity: Vec, acceleration: Vec, dx: Vec,
                         h: real, gammaPrime: real, betaPrime: real)
    returns (deltaNext: Vec, velocityNext: Vec, accelerationNext: Vec)
    requires |velocity| == |delta| && |acceleration| == |delta| && |dx| == |delta| && h != 0.0
    ensures deltaNext == AddDivided(delta, dx, h)
    ensures velocityNext == AddScaled(velocity, dx, gammaPrime)
    ensures accelerationNext == AddScaled(acceleration, dx, betaPrime)
  {
    deltaNext, velocityNext, accelerationNext := delta, velocity, acceleration;
    for i := 0 to |delta|
      invariant |deltaNext| == |velocityNext| == |accelerationNext| == |delta|
      invariant forall j :: 0 <= j < i ==> deltaNext[j] == delta[j] + dx[j] / h
      invariant forall j :: 0 <= j < i ==> velocityNext[j] == ScaledEntry(velocity[j], dx[j], gammaPrime)
      invariant forall j :: 0 <= j < i ==> accelerationNext[j] == ScaledEntry(acceleration[j], dx[j], betaPrime)
      invariant forall j :: i <= j < |delta| ==>
        deltaNext[j] == delta[j] && velocityNext[j] == velocity[j] && accelerationNext[j] == acceleration[j]
    {
      deltaNext := deltaNext[i := deltaNext[i] + dx[i] / h];
      velocityNext := velocityNext[i := ScaledEntry(velocityNext[i], dx[i], gammaPrime)];
      accelerationNext := accelerationNext[i := ScaledEntry(accelerationNext[i], dx[i], betaPrime)];
    }
  }

  /** One correction of the Newton-Raphson loop: solve, then move the multipliers and the rates. */
  method Correction(s: Step, it: Iterate, r: Vec) returns (next: Iterate)
    requires Conforming(s) && Sized(s, |it.coordsNext|, it) && |r| == s.size + s.constraints
    ensures next == Correct(s, it, r)
  {
    var system := System(s, it, r);
    var x := s.solve(system.0, system.1);
    var dx := NegatedIncrements(x, s.size);
    var lambda := it.lambda;
    if s.constraints > 0 {
      lambda := ShiftMultipliers(it.lambda, x, s.size, s.precondition, BetaSquaredStep(s.p, s.h));
    }
    var delta, velocity, acceleration :=
      ApplyIncrements(it.delta, it.velocity, it.acceleration, dx, s.h, GammaPrime(s.p, s.h), BetaPrime(s.p, s.h));
    next := Iterate(it.coordsNext, delta, velocity, acceleration, lambda);
  }

  /** The loop after the Newton-Raphson iterations that adds the scaled final accelerations. */
  method CorrectAlgoAcceleration(p: Parameters, predicted: Vec, acceleration: Vec) returns (algo: Vec)
    requires p.alphaM != 1.0 && |acceleration| == |predicted|
    ensures algo == FinalAlgoAcceleration(p, predicted, acceleration)
  {
    var factor := (1.0 - p.alphaF) / (1.0 - p.alphaM);
    algo := predicted;
    for i := 0 to |predicted|
      invariant |algo| == |predicted|
      invariant forall j :: 0 <= j < i ==> algo[j] == ScaledEntry(predicted[j], acceleration[j], factor)
      invariant forall j :: i <= j < |predicted| ==> algo[j] == predicted[j]
    {
      algo := algo[i := ScaledEntry(algo[i], acceleration[i], factor)];
    }
    assert algo == AddScaled(predicted, acceleration, factor);
  }

  /** The time `i` steps of size `t` take. */
  function Elapsed(i: nat, t: real): real {
    i as real * t
  }

  /** The most iterations `i` steps of at most `n` iterations each can make. */
  function IterationBudget(i: nat, n: nat): nat {
    i * n
  }

  /** The step from `i` to `i + 1` multiples, for the time and the iteration bound of `Integrate`. */
  lemma {:induction false} NextMultiple(i: nat, t: real, n: nat)
    ensures Elapsed(i + 1, t) == Elapsed(i, t) + t
    ensures IterationBudget(i + 1, n) == IterationBudget(i, n) + n
  {
  }

  /** `next` is the state one step specifies from `state`. */
  ghost predicate Follows(s: Step, state: State, next: State)
    requires Conforming(s) && Shaped(state, s.size)
  {
    next == AlphaStepSpec(s, state).state
  }

  /** Each state after the first is what one step specifies from the state before it. */
  ghost predicate Trajectory(s: Step, states: seq<State>)
    requires Conforming(s)
  {
    && 0 < |states|
    && (forall j :: 0 <= j < |states| ==> Shaped(states[j], s.size))
    && (forall j {:trigger Follows(s, states[j], states[j + 1])} :: 0 <= j < |states| - 1 ==>
          Follows(s, states[j], states[j + 1]))
  }

  /** Some step of a trajectory, from one of its states but the last, converged. */
  ghost predicate SomeStepConverged(s: Step, states: seq<State>)
    requires Conforming(s) && Trajectory(s, states)
  {
    exists j :: 0 <= j < |states| - 1 && AlphaStepSpec(s, states[j]).converged
  }

  /** The Newton iterations the step from state `j` of a trajectory takes. */
  ghost function StepIterations(s: Step, states: seq<State>, j: nat): nat
    requires Conforming(s) && Trajectory(s, states) && j < |states|
  {
    AlphaStepSpec(s, states[j]).iterations
  }

  /** The sum of a sequence of counts. */
  function Sum(counts: seq<nat>): nat
    decreases |counts|
  {
    if |counts| == 0 then 0 else Sum(counts[..|counts| - 1]) + counts[|counts| - 1]
  }

  /** Appending a count adds it to the sum. */
  lemma {:induction false} SumAppend(counts: seq<nat>, x: nat)
    ensures Sum(counts + [x]) == Sum(counts) + x
  {
    assert (counts + [x])[..|counts|] == counts;
  }

  /** `counts` lists, step by step, the Newton iterations each step of a trajectory takes. */
  ghost predicate IterationCounts(s: Step, states: seq<State>, counts: seq<nat>)
    requires Conforming(s) && Trajectory(s, states)
  {
    && |counts| == |states| - 1
    && forall j {:trigger StepIterations(s, states, j)} :: 0 <= j < |counts| ==>
         counts[j] == StepIterations(s, states, j)
  }

  /** Counts that are each at most `n` sum to at most `n` times their number. */
  lemma {:induction false} SumBounded(counts: seq<nat>, n: nat)
    requires forall j :: 0 <= j < |counts| ==> counts[j] <= n
    ensures Sum(counts) <= IterationBudget(|counts|, n)
    decreases |counts|
  {
    if 0 < |counts| {
      var prefix := counts[..|counts| - 1];
      assert forall j :: 0 <= j < |prefix| ==> prefix[j] == counts[j];
      SumBounded(prefix, n);
      NextMultiple(|prefix|, 0.0, n);
    }
  }

  /** The steps of a trajectory of `n + 1` states take at most `n` times the cap on iterations. */
  lemma {:induction false} TotalIterationsBounded(s: Step, states: seq<State>, counts: seq<nat>)
    requires Conforming(s) && Trajectory(s, states) && IterationCounts(s, states, counts)
    ensures Sum(counts) <= IterationBudget(|states| - 1, s.maxIterations)
  {
    forall j | 0 <= j < |counts|
      ensures counts[j] <= s.maxIterations
    {
      assert counts[j] == StepIterations(s, states, j);
    }
    SumBounded(counts, s.maxIterations);
  }

  /** A trajectory extended by the step from its last state is a trajectory, which converged somewhere iff it had or that step did. */
  lemma {:induction false} TrajectoryExtended(s: Step, states: seq<State>, next: State)
    requires Conforming(s) && Trajectory(s, states)
    requires next == AlphaStepSpec(s, states[|states| - 1]).state
    ensures Trajectory(s, states + [next])
    ensures SomeStepConverged(s, states + [next]) <==>
      SomeStepConverged(s, states) || AlphaStepSpec(s, states[|states| - 1]).converged
  {
    var extended := states + [next];
    assert forall j :: 0 <= j < |states| ==> extended[j] == states[j];
    forall j | 0 <= j < |extended| - 1
      ensures Follows(s, extended[j], extended[j + 1])
    {
      if j < |states| - 1 {
        assert Follows(s, states[j], states[j + 1]);
      }
    }
    if AlphaStepSpec(s, states[|states| - 1]).converged {
      assert AlphaStepSpec(s, extended[|states| - 1]).converged;
    }
    if SomeStepConverged(s, extended) {
      var j :| 0 <= j < |extended| - 1 && AlphaStepSpec(s, extended[j]).converged;
      if j < |states| - 1 {
        assert AlphaStepSpec(s, states[j]).converged;
      }
    }
  }

  // ---------------------------------------------------------------------------------------------
  // The integrator object
  // ---------------------------------------------------------------------------------------------

  /**
   * `GeneralizedAlphaTimeIntegrator`: the four parameters, its own copy of the time stepper,
   * whether to precondition, and the flag raised when a step converges.
   */
  class GeneralizedAlphaTimeIntegrator {
    const alphaF: real
    const alphaM: real
    const beta: real
    const gamma: real
    const stepper: TimeStepper
    const precondition: bool
    var isConverged: bool

    function Params(): Parameters {
      Parameters(alphaF, alphaM, beta, gamma)
    }

    /** The constructor once its range checks have passed: it copies the stepper and clears the flag. */
    constructor(p: Parameters, timeStepper: TimeStepper, precondition: bool)
      requires ValidParameters(p)
      ensures Params() == p && this.precondition == precondition && !isConverged
      ensures fresh(stepper) && stepper.timeStep == timeStepper.timeStep
      ensures stepper.numberOfSteps == timeStepper.numberOfSteps
      ensures stepper.maximumIterations == timeStepper.maximumIterations
      ensures stepper.currentTime == timeStepper.currentTime
      ensures stepper.iterations == timeStepper.iterations
      ensures stepper.totalIterations == timeStepper.totalIterations
    {
      alphaF, alphaM, beta, gamma := p.alphaF, p.alphaM, p.beta, p.gamma;
      stepper := new TimeStepper.Copy(timeStepper);
      this.precondition := precondition;
      isConverged := false;
    }

    /** The constructor with its checks: the first parameter out of range is the error thrown. */
    static method New(p: Parameters, timeStepper: TimeStepper, precondition: bool)
      returns (r: Result<GeneralizedAlphaTimeIntegrator, IntegratorError>)
      ensures CheckParameters(p).Err? <==> r.Err?
      ensures r.Err? ==> r.error == CheckParameters(p).error
      ensures r.Ok? ==> fresh(r.value) && fresh(r.value.stepper) && r.value.Params() == p
      ensures r.Ok? ==> r.value.precondition == precondition && !r.value.isConverged
      ensures r.Ok? ==> r.value.stepper.timeStep == timeStepper.timeStep
      ensures r.Ok? ==> r.value.stepper.maximumIterations == timeStepper.maximumIterations
      ensures r.Ok? ==> r.value.stepper.numberOfSteps == timeStepper.numberOfSteps
      ensures r.Ok? ==> r.value.stepper.currentTime == timeStepper.currentTime
      ensures r.Ok? ==> r.value.stepper.iterations == timeStepper.iterations
      ensures r.Ok? ==> r.value.stepper.totalIterations == timeStepper.totalIterations
    {
      var checked := CheckParameters(p);
      if checked.Err? {
        return Err(checked.error);
      }
      var integrator := new GeneralizedAlphaTimeIntegrator(p, timeStepper, precondition);
      r := Ok(integrator);
    }

    /** What every step of this integrator holds fixed, for `size` degrees of freedom and `constraints` multipliers. */
    function StepOf(m: Libm, size: nat, constraints: nat, residual: ResidualFunction,
                    iterationMatrix: IterationMatrixFunction, solve: LinearSolver): Step
    {
      Step(m, Params(), stepper.timeStep, stepper.maximumIterations, precondition, size, constraints,
           residual, iterationMatrix, solve)
    }

    /** `CheckConvergence`: the loop that sums the squared residual entries, then the norm test. */
    method CheckConvergence(m: Libm, residual: Vec) returns (converged: bool)
      ensures converged == Converged(m, residual)
    {
      var sum := 0.0;
      for i := 0 to |residual|
        invariant sum == SumOfSquaredEntries(residual[..i])
      {
        assert residual[..i + 1][..i] == residual[..i];
        sum := sum + Square(residual[i]);
      }
      assert residual[..|residual|] == residual;
      converged := m.sqrt(sum) < kCONVERGENCETOLERANCE;
    }

    /**
     * One pass of the Newton-Raphson loop, the `k`-th: update the coordinates, evaluate the
     * residual and test it; when it has not converged, solve for the correction. It does what
     * `Newton` does at `k`: it stops there, or `Newton` carries on from the corrected iterate.
     */
    method NewtonIteration(s: Step, coords: Vec, ghost k: nat, it: Iterate) returns (converged: bool, next: Iterate)
      requires Conforming(s) && UpdatableShape(|coords|, s.size) && Sized(s, |coords|, it) && k < s.maxIterations
      ensures Sized(s, |coords|, next)
      ensures converged ==> NewtonFrom(s, coords, k, it) == Outcome(next, k, true)
      ensures !converged ==> NewtonFrom(s, coords, k, it) == NewtonFrom(s, coords, k + 1, next)
    {
      var current := it.(coordsNext := UpdateGeneralizedCoordinates(s.m, s.h, coords, it.delta));
      var r := s.residual(current.coordsNext, current.velocity, current.acceleration, current.lambda);
      NewtonAdvances(s, coords, k, it, current, r);
      converged := CheckConvergence(s.m, r);
      if converged {
        next := current;
      } else {
        next := Correction(s, current, r);
      }
    }

    /**
     * The Newton-Raphson loop of `AlphaStep`, run on the stepper's iteration counter from the
     * start iterate: it ends where `Newton` does, and raises the flag when it converges.
     */
    method Iterations(s: Step, coords: Vec, start: Iterate) returns (final: Iterate)
      requires Conforming(s) && UpdatableShape(|coords|, s.size) && Sized(s, |coords|, start)
      requires s.maxIterations == stepper.maximumIterations
      modifies this, stepper
      ensures var o := NewtonFrom(s, coords, 0, start);
        && final == o.iterate && stepper.iterations == o.iterations
        && isConverged == (old(isConverged) || o.converged)
      ensures stepper.currentTime == old(stepper.currentTime)
      ensures stepper.totalIterations == old(stepper.totalIterations)
    {
      ghost var target := NewtonFrom(s, coords, 0, start);
      final := start;
      stepper.SetNumberOfIterations(0);
      while stepper.iterations < stepper.maximumIterations
        invariant stepper.iterations <= stepper.maximumIterations
        invariant Sized(s, |coords|, final)
        invariant NewtonFrom(s, coords, stepper.iterations, final) == target
        invariant isConverged == old(isConverged)
        invariant stepper.currentTime == old(stepper.currentTime)
        invariant stepper.totalIterations == old(stepper.totalIterations)
        decreases stepper.maximumIterations - stepper.iterations
      {
        var converged, next := NewtonIteration(s, coords, stepper.iterations, final);
        final := next;
        if converged {
          isConverged := true;
          break;
        }
        stepper.IncrementNumberOfIterations();
      }
      NewtonFromExhausted(s, coords, stepper.iterations, final);
    }

    /**
     * `AlphaStep`: predict, run the Newton-Raphson loop, add its iterations to the total and
     * correct the algorithmic accelerations. The step returned is the one `AlphaStepSpec` specifies.
     */
    method AlphaStep(m: Libm, state: State, constraints: nat, residual: ResidualFunction,
                     iterationMatrix: IterationMatrixFunction, solve: LinearSolver)
      returns (next: State, lambda: Vec)
      requires Conforming(StepOf(m, |state.velocity|, constraints, residual, iterationMatrix, solve))
      requires Shaped(state, |state.velocity|)
      modifies this, stepper
      ensures var r := AlphaStepSpec(StepOf(m, |state.velocity|, constraints, residual, iterationMatrix, solve), state);
        && next == r.state && lambda == r.lambda && stepper.iterations == r.iterations
        && stepper.totalIterations == old(stepper.totalIterations) + r.iterations
        && isConverged == (old(isConverged) || r.converged)
      ensures stepper.currentTime == old(stepper.currentTime)
    {
      var s := StepOf(m, |state.velocity|, constraints, residual, iterationMatrix, solve);
      var algoNext, delta, velocity :=
        Predictor(Params(), s.h, state.velocity, state.acceleration, state.algoAcceleration);
      var start := Iterate(Zeros(|state.coords|), delta, velocity, Zeros(s.size), Zeros(constraints));
      assert start == StartIterate(s, state);
      var final := Iterations(s, state.coords, start);
      NewtonFromHolds(s, state.coords, 0, start);
      stepper.IncrementTotalNumberOfIterations(stepper.iterations);
      var algo := CorrectAlgoAcceleration(Params(), algoNext, final.acceleration);
      next := State(final.coordsNext, final.velocity, final.acceleration, algo);
      lambda := final.lambda;
    }

    /**
     * One pass of the loop of `Integrate`: advance the time, then step from the last state. The
     * trajectory grows by that step, the flag is raised exactly when some step so far converged,
     * the step's iteration count is the one the new step specifies and the total grows by it.
     */
    method StepFrom(ghost s: Step, ghost counts: seq<nat>, m: Libm, states: seq<State>, constraints: nat,
                    residual: ResidualFunction, iterationMatrix: IterationMatrixFunction, solve: LinearSolver)
      returns (extended: seq<State>)
      requires 0 < |states|
      requires s == StepOf(m, |states[0].velocity|, constraints, residual, iterationMatrix, solve)
      requires Conforming(s) && Trajectory(s, states)
      requires SomeStepConverged(s, states) ==> isConverged
      requires IterationCounts(s, states, counts)
      modifies this, stepper
      ensures |extended| == |states| + 1 && extended[..|states|] == states && Trajectory(s, extended)
      ensures isConverged <==> old(isConverged) || SomeStepConverged(s, extended)
      ensures SomeStepConverged(s, states) ==> SomeStepConverged(s, extended)
      ensures stepper.currentTime == old(stepper.currentTime) + stepper.timeStep
      ensures IterationCounts(s, extended, counts + [stepper.iterations])
      ensures stepper.totalIterations == old(stepper.totalIterations) + stepper.iterations
      ensures stepper.iterations <= stepper.maximumIterations
    {
      var last := states[|states| - 1];
      assert Shaped(last, s.size);
      assert StepOf(m, |last.velocity|, constraints, residual, iterationMatrix, solve) == s;
      stepper.AdvanceTimeStep();
      var next, lambda := AlphaStep(m, last, constraints, residual, iterationMatrix, solve);
      ghost var r := AlphaStepSpec(s, last);
      assert next == r.state;
      TrajectoryExtended(s, states, next);
      extended := states + [next];
      assert extended[..|states|] == states;
      ghost var after := counts + [stepper.iterations];
      forall j | 0 <= j < |after|
        ensures after[j] == StepIterations(s, extended, j)
      {
        if j < |counts| {
          assert after[j] == StepIterations(s, states, j);
        }
      }
    }

    /**
     * `Integrate`: one `AlphaStep` per step of the stepper, each after advancing the time, from
     * the initial state; the states returned are the initial one and each step's result.
     */
    method Integrate(m: Libm, initial: State, constraints: nat, residual: ResidualFunction,
                     iterationMatrix: IterationMatrixFunction, solve: LinearSolver)
      returns (states: seq<State>, ghost counts: seq<nat>)
      requires Conforming(StepOf(m, |initial.velocity|, constraints, residual, iterationMatrix, solve))
      requires Shaped(initial, |initial.velocity|)
      modifies this, stepper
      ensures var s := StepOf(m, |initial.velocity|, constraints, residual, iterationMatrix, solve);
        && |states| == stepper.numberOfSteps + 1 && states[0] == initial && Trajectory(s, states)
        && (isConverged <==> old(isConverged) || SomeStepConverged(s, states))
      ensures stepper.currentTime == old(stepper.currentTime) + stepper.numberOfSteps as real * stepper.timeStep
      ensures var s := StepOf(m, |initial.velocity|, constraints, residual, iterationMatrix, solve);
        && (stepper.numberOfSteps == 0 ==> stepper.iterations == old(stepper.iterations))
        && IterationCounts(s, states, counts)
        && (0 < stepper.numberOfSteps ==> stepper.iterations == counts[stepper.numberOfSteps - 1])
        && stepper.totalIterations == old(stepper.totalIterations) + Sum(counts)
      ensures 0 < stepper.numberOfSteps ==> stepper.iterations <= stepper.maximumIterations
      ensures stepper.totalIterations <= old(stepper.totalIterations) + stepper.numberOfSteps * stepper.maximumIterations
    {
      ghost var s := StepOf(m, |initial.velocity|, constraints, residual, iterationMatrix, solve);
      states := [initial];
      counts := [];
      for i := 0 to stepper.numberOfSteps
        invariant |states| == i + 1 && states[0] == initial && Trajectory(s, states)
        invariant isConverged <==> old(isConverged) || SomeStepConverged(s, states)
        invariant stepper.currentTime == old(stepper.currentTime) + Elapsed(i, stepper.timeStep)
        invariant i == 0 ==> stepper.iterations == old(stepper.iterations)
        invariant IterationCounts(s, states, counts)
        invariant 0 < i ==> stepper.iterations == counts[i - 1]
        invariant 0 < i ==> stepper.iterations <= stepper.maximumIterations
        invariant stepper.totalIterations == old(stepper.totalIterations) + Sum(counts)
      {
        NextMultiple(i, stepper.timeStep, stepper.maximumIterations);
        states := StepFrom(s, counts, m, states, constraints, residual, iterationMatrix, solve);
        SumAppend(counts, stepper.iterations);
        counts := counts + [stepper.iterations];
      }
      TotalIterationsBounded(s, states, counts);
    }
  }
}

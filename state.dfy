/**
 * The value types of the rigid-body code: the `State` of a step (generalized coordinates,
 * velocities, accelerations and algorithmic accelerations), the 6 by 6 `MassMatrix`, and the
 * 6-entry `GeneralizedForces` vector. Every constructor validates its input and fills freshly
 * allocated storage, so each is a function returning a value or the error it throws.
 */
module RigidBodyState {

  import opened Utilities
  import opened Results
  import opened Quaternions

  /** A `State`: four vectors, each the model of a deep copy of the constructor's argument. */
  datatype State = State(coords: Vec, velocity: Vec, acceleration: Vec, algoAcceleration: Vec)

  /** The default `State`: four freshly allocated views of one zero each. */
  function DefaultState(): (s: State)
    ensures |s.coords| == |s.velocity| == |s.acceleration| == |s.algoAcceleration| == 1
    ensures s.coords[0] == s.velocity[0] == s.acceleration[0] == s.algoAcceleration[0] == 0.0
  {
    State(Zeros(1), Zeros(1), Zeros(1), Zeros(1))
  }

  datatype StateError =
    | NonPositiveMass      // `Mass must be positive`
    | NonPositiveInertia   // `Moment of inertia must be positive`
    | NotSixBySix          // `Mass matrix must be 6 x 6`
    | NotSixEntries        // `Generalized forces must be 6 x 1`

  /** A mass matrix together with the mass and principal moments it was built from. */
  datatype MassMatrix = MassMatrix(mass: real, inertia: Vector, matrix: Mat)

  /** Entry (i, i) of diag(m, m, m, Jx, Jy, Jz). */
  function DiagonalEntry(mass: real, J: Vector, i: nat): real {
    if i < 3 then mass else if i == 3 then J.x else if i == 4 then J.y else J.z
  }

  /** diag(m, m, m, Jx, Jy, Jz), the layout the mass matrix constructor writes. */
  function Diagonal6(mass: real, J: Vector): (M: Mat)
    ensures IsMatrix(M, 6, 6)
    ensures forall i, j :: 0 <= i < 6 && 0 <= j < 6 ==>
      M[i][j] == if i == j then DiagonalEntry(mass, J, i) else 0.0
  {
    seq(6, i requires 0 <= i < 6 => seq(6, j => if i == j then DiagonalEntry(mass, J, i) else 0.0))
  }

  /** `MassMatrix(mass, J)`: fails on a non-positive mass, then on a non-positive moment. */
  function NewMassMatrix(mass: real, J: Vector): (r: Result<MassMatrix, StateError>)
    ensures r.Err? <==> mass <= 0.0 || J.x <= 0.0 || J.y <= 0.0 || J.z <= 0.0
    ensures mass <= 0.0 ==> r == Err(NonPositiveMass)
    ensures 0.0 < mass && r.Err? ==> r.error == NonPositiveInertia
    ensures r.Ok? ==>
      && r.value.mass == mass && r.value.inertia == J
      && IsMatrix(r.value.matrix, 6, 6)
      && (forall i :: 0 <= i < 3 ==> r.value.matrix[i][i] == mass)
      && r.value.matrix[3][3] == J.x && r.value.matrix[4][4] == J.y && r.value.matrix[5][5] == J.z
      && (forall i, j :: 0 <= i < 6 && 0 <= j < 6 && i != j ==> r.value.matrix[i][j] == 0.0)
  {
    if mass <= 0.0 then Err(NonPositiveMass)
    else if J.x <= 0.0 || J.y <= 0.0 || J.z <= 0.0 then Err(NonPositiveInertia)
    else Ok(MassMatrix(mass, J, Diagonal6(mass, J)))
  }

  /** `MassMatrix(mass, I)`: the same validation and layout with all three moments equal to `I`. */
  function NewUniformMassMatrix(mass: real, moment: real): (r: Result<MassMatrix, StateError>)
    ensures r.Err? <==> mass <= 0.0 || moment <= 0.0
    ensures mass <= 0.0 ==> r == Err(NonPositiveMass)
    ensures 0.0 < mass && r.Err? ==> r.error == NonPositiveInertia
    ensures r.Ok? ==>
      && r.value.mass == mass && r.value.inertia == Vector(moment, moment, moment)
      && IsMatrix(r.value.matrix, 6, 6)
      && (forall i :: 0 <= i < 3 ==> r.value.matrix[i][i] == mass)
      && (forall i :: 3 <= i < 6 ==> r.value.matrix[i][i] == moment)
      && (forall i, j :: 0 <= i < 6 && 0 <= j < 6 && i != j ==> r.value.matrix[i][j] == 0.0)
  {
    var r := NewMassMatrix(mass, Vector(moment, moment, moment));
    assert r.Ok? ==> forall i :: 3 <= i < 6 ==> r.value.matrix[i][i] == moment;
    r
  }

  /**
   * `MassMatrix(view)`: fails unless the `rows` by `cols` matrix is 6 by 6; otherwise keeps a
   * copy and reads the mass and moments off its diagonal, with no positivity check.
   */
  function MassMatrixFromMatrix(M: Mat, rows: nat, cols: nat): (r: Result<MassMatrix, StateError>)
    requires IsMatrix(M, rows, cols)
    ensures r.Err? <==> rows != 6 || cols != 6
    ensures r.Err? ==> r.error == NotSixBySix
    ensures r.Ok? ==>
      r.value.matrix == M && r.value.mass == M[0][0] && r.value.inertia == Vector(M[3][3], M[4][4], M[5][5])
  {
    if rows != 6 || cols != 6 then Err(NotSixBySix)
    else Ok(MassMatrix(M[0][0], Vector(M[3][3], M[4][4], M[5][5]), M))
  }

  /** Rebuilding a mass matrix from its own 6 by 6 matrix gives it back. */
  lemma MassMatrixRoundTrip(mass: real, J: Vector)
    requires NewMassMatrix(mass, J).Ok?
    ensures MassMatrixFromMatrix(NewMassMatrix(mass, J).value.matrix, 6, 6) == NewMassMatrix(mass, J)
  {
  }

  /** A generalized-forces vector together with the forces and moments it was built from. */
  datatype GeneralizedForces = GeneralizedForces(forces: Vector, moments: Vector, vector: Vec)

  /** `GeneralizedForces(forces, moments)`: [fx, fy, fz, mx, my, mz]. */
  function NewGeneralizedForces(forces: Vector, moments: Vector): (r: GeneralizedForces)
    ensures r.forces == forces && r.moments == moments
    ensures |r.vector| == 6
    ensures r.vector[..3] == [forces.x, forces.y, forces.z]
    ensures r.vector[3..] == [moments.x, moments.y, moments.z]
  {
    GeneralizedForces(forces, moments,
      [forces.x, forces.y, forces.z, moments.x, moments.y, moments.z])
  }

  /**
   * `GeneralizedForces(view)`: fails unless the view has six entries; otherwise keeps a copy.
   * The forces and moments members stay default-constructed (zero vectors).
   */
  function GeneralizedForcesFromVector(g: Vec): (r: Result<GeneralizedForces, StateError>)
    ensures r.Err? <==> |g| != 6
    ensures r.Err? ==> r.error == NotSixEntries
    ensures r.Ok? ==> r.value.vector == g
    ensures r.Ok? ==> r.value.forces == Vector(0.0, 0.0, 0.0) && r.value.moments == Vector(0.0, 0.0, 0.0)
  {
    if |g| != 6 then Err(NotSixEntries)
    else Ok(GeneralizedForces(Vector(0.0, 0.0, 0.0), Vector(0.0, 0.0, 0.0), g))
  }

  /** Building from forces and moments and then from the resulting vector keeps the vector. */
  lemma GeneralizedForcesRoundTrip(forces: Vector, moments: Vector)
    ensures GeneralizedForcesFromVector(NewGeneralizedForces(forces, moments).vector).Ok?
    ensures GeneralizedForcesFromVector(NewGeneralizedForces(forces, moments).vector).value.vector
         == NewGeneralizedForces(forces, moments).vector
  {
  }
}

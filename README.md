# Rigid-body generalized-alpha integrator, modelled in Dafny

This project models the rigid-pendulum proof of concept of OpenTurbine:
- the generalized-alpha time integrator (Brüls, Cardona and Arnold 2012), with the diagonal preconditioning of Bottasso et al. (2008);
- the quaternion toolkit that integrator uses for rotations;
- the rigid-body state, mass matrix and generalized forces;
- the heavy-top residual and iteration matrix;
- the identity stand-ins that the rigid-pendulum tests pass in place of the heavy top.

Floating-point `double` is modelled as `real`. The C math library (`sqrt`, `sin`, `cos`, `atan2`, pi) cannot be seen from here. It is a parameter `Libm`, and the predicate `Transcendental.Lawful` lists the few facts of the real functions that the proofs use.

Files:
- `arith.dfy` holds small facts of real arithmetic.
- `libm.dfy` holds the math-library parameter.
- `results.dfy` holds the `Result` type. It stands for the exceptions the C++ code throws.
- `utilities.dfy` holds vectors, matrices, `close_to`, C `fmod` and `wrap_angle_to_pi`.
- `quaternion.dfy` covers the quaternion functions of `quaternion.cpp`.
- `state.dfy` covers `state.cpp`.
- `heavy_top.dfy` covers `heavy_top.cpp`.
- `time_stepper.dfy` holds the part of `TimeStepper` that the integrator calls.
- `generalized_alpha.dfy` covers `generalized_alpha_time_integrator.cpp`.

One step of the integrator is specified by pure functions:
- `Predict`: the predictor.
- `Correct`: one Newton-Raphson correction.
- `Newton`: the iteration loop.
- `FinalAlgoAcceleration`: the closing update of the algorithmic accelerations.
- `AlphaStepSpec`: the whole step, composed from the above.

The C++ code changes state in place. The integrator object therefore becomes a Dafny class, `GeneralizedAlphaTimeIntegrator`:
- It owns a `TimeStepper` object and an `isConverged` flag.
- Its methods are written as loops over the same entries as the Kokkos kernels.
- Each method is proved equal to the function that specifies it.
- `Integrate` is proved to return a trajectory: every state follows from the one before by `AlphaStepSpec`. It is also proved to advance the clock by `numberOfSteps * timeStep`. The iteration counters are stated exactly: the last count is the last step's Newton iterations, and the total grows by the sum of every step's iterations, which is at most `numberOfSteps * maximumIterations`.

## Model

| member | source | states |
|---|---|---|
| GeneralizedAlpha.CheckParameters | src/rigid_pendulum_poc/generalized_alpha_time_integrator.cpp:37-51 | parameters are accepted exactly when alpha_f, alpha_m, gamma lie in [0, 1] and beta in [0, 0.5]; otherwise the first out-of-range parameter, in the constructor's order, is the error reported |
| GeneralizedAlpha.ParameterExamples | tests/unit_tests/rigid_pendulum_poc/test_generalized_alpha_solver.cpp:139-170 | the four invalid parameter sets of the tests are rejected with the matching error; the default and supplied sets are accepted unchanged |
| GeneralizedAlpha.GeneralizedAlphaTimeIntegrator.constructor | src/rigid_pendulum_poc/generalized_alpha_time_integrator.cpp:27-54 | valid parameters are stored, the time stepper is copied field by field, and the integrator starts not converged |
| GeneralizedAlpha.GeneralizedAlphaTimeIntegrator.New | src/rigid_pendulum_poc/generalized_alpha_time_integrator.cpp:27-54 | construction fails exactly when the parameter check fails, with the same error; on success the new integrator holds the parameters and a fresh stepper with every field of the given one (step size, number of steps, maximum iterations, current time and both counters), and is not converged |
| GeneralizedAlpha.ConvergedIffSquaresBelow | src/rigid_pendulum_poc/generalized_alpha_time_integrator.cpp:300-318 | a residual has converged exactly when the sum of its squared entries is below the square of the tolerance |
| GeneralizedAlpha.ConvergedWhenDominated | src/rigid_pendulum_poc/generalized_alpha_time_integrator.cpp:300-318 | the convergence test is monotone: a residual entrywise no larger in magnitude than a converged one has converged |
| GeneralizedAlpha.OnesNeverConverge | src/rigid_pendulum_poc/generalized_alpha_time_integrator.cpp:300-318 | a residual of n ones converges if and only if n is zero |
| GeneralizedAlpha.ConvergenceExamples | tests/unit_tests/rigid_pendulum_poc/test_generalized_alpha_solver.cpp:121-137 | the residual (0.1, 0.2, 0.3) times the tolerance converges; (10, 20, 30) times the tolerance does not |
| GeneralizedAlpha.GeneralizedAlphaTimeIntegrator.CheckConvergence | src/rigid_pendulum_poc/generalized_alpha_time_integrator.cpp:300-318 | the loop that sums squared residual entries returns exactly the convergence predicate (the square root of the sum is below the tolerance) |
| GeneralizedAlpha.UpdateGeneralizedCoordinates | src/rigid_pendulum_poc/generalized_alpha_time_integrator.cpp:262-298 | the first three coordinates move by h times the increments, and the length is unchanged |
| GeneralizedAlpha.UpdatedOrientation | src/rigid_pendulum_poc/generalized_alpha_time_integrator.cpp:262-298 | for a 7-entry vector the orientation becomes the current quaternion composed with the quaternion of the rotation vector h times increments 3..5 |
| GeneralizedAlpha.UpdateKeepsOrientationLength | src/rigid_pendulum_poc/generalized_alpha_time_integrator.cpp:262-298 | the coordinate update keeps the squared length of the orientation quaternion, so a unit orientation stays a unit orientation |
| GeneralizedAlpha.ZeroIncrementKeepsCoordinates | src/rigid_pendulum_poc/generalized_alpha_time_integrator.cpp:262-298 | a zero increment leaves the coordinates unchanged |
| GeneralizedAlpha.UpdateFromIdentity | src/rigid_pendulum_poc/generalized_alpha_time_integrator.cpp:262-298 | from the identity orientation, the updated orientation is the quaternion of the rotation vector itself |
| GeneralizedAlpha.UpdateExample | tests/unit_tests/rigid_pendulum_poc/test_generalized_alpha_solver.cpp:89-119 | the update of (0, -1, 0, 1, 0, 0, 0) by (1, 1, 1, 1, 2, 3) with h = 1 gives position (1, 0, 1) and orientation equal to the quaternion of the rotation vector (1, 2, 3) |
| GeneralizedAlpha.BetaPrime | src/rigid_pendulum_poc/generalized_alpha_time_integrator.cpp:125 | beta' times h² beta (1 - alpha_f) equals 1 - alpha_m |
| GeneralizedAlpha.GammaPrime | src/rigid_pendulum_poc/generalized_alpha_time_integrator.cpp:126 | gamma' times h beta equals gamma |
| GeneralizedAlpha.LeftPreconditioner | src/rigid_pendulum_poc/generalized_alpha_time_integrator.cpp:129-153 | dl is diagonal of order size + constraints; with preconditioning its first `size` diagonal entries are beta h² and the rest 1; without it, dl is zero |
| GeneralizedAlpha.RightPreconditioner | src/rigid_pendulum_poc/generalized_alpha_time_integrator.cpp:129-153 | dr is diagonal of order size + constraints; with preconditioning its first `size` diagonal entries are 1 and the rest 1 / (beta h²); without it, dr is zero |
| GeneralizedAlpha.DiagonalScaling | src/rigid_pendulum_poc/generalized_alpha_time_integrator.cpp:176-179 | dl A dr scales entry (i, j) of A by dl(i, i) dr(j, j) |
| GeneralizedAlpha.PreconditionedEntries | src/rigid_pendulum_poc/generalized_alpha_time_integrator.cpp:129-179 | entry (i, j) of dl A dr is A(i, j) times beta h² when i is a rate row, divided by beta h² when j is a multiplier column, so the rate-by-multiplier block keeps its entries |
| GeneralizedAlpha.ScaledResidualIsLeftPreconditioned | src/rigid_pendulum_poc/generalized_alpha_time_integrator.cpp:176-182 | for the six-DOF body, scaling the residual is the same as multiplying it by the left preconditioner dl |
| GeneralizedAlpha.PredictedAlgoAcceleration | src/rigid_pendulum_poc/generalized_alpha_time_integrator.cpp:98-102 | each predicted algorithmic acceleration times (1 - alpha_m) equals alpha_f a - alpha_m a-bar |
| GeneralizedAlpha.Predict | src/rigid_pendulum_poc/generalized_alpha_time_integrator.cpp:98-113 | the predictor gives the predicted algorithmic accelerations, and per entry the increment v + h (1/2 - beta) a-bar + h beta a-bar' and the velocity v + h (1 - gamma) a-bar + h gamma a-bar' |
| GeneralizedAlpha.PredictAtRest | src/rigid_pendulum_poc/generalized_alpha_time_integrator.cpp:98-113 | from rest (zero velocity, acceleration and algorithmic acceleration) the predictor returns zeros |
| GeneralizedAlpha.Predictor | src/rigid_pendulum_poc/generalized_alpha_time_integrator.cpp:98-113 | the entry-by-entry predictor loop returns exactly `Predict` |
| GeneralizedAlpha.Increments | src/rigid_pendulum_poc/generalized_alpha_time_integrator.cpp:189-194 | the rate increments are the negated first `size` entries of the solution |
| GeneralizedAlpha.NegatedIncrements | src/rigid_pendulum_poc/generalized_alpha_time_integrator.cpp:189-194 | the negation loop returns exactly `Increments` |
| GeneralizedAlpha.UpdatedMultipliers | src/rigid_pendulum_poc/generalized_alpha_time_integrator.cpp:196-219 | each multiplier moves by minus its solution entry, divided by beta h² when preconditioning; the count is unchanged |
| GeneralizedAlpha.ShiftMultipliers | src/rigid_pendulum_poc/generalized_alpha_time_integrator.cpp:196-219 | the multiplier loop returns exactly `UpdatedMultipliers` |
| GeneralizedAlpha.AddScaled | src/rigid_pendulum_poc/generalized_alpha_time_integrator.cpp:222-229 | each entry moves by k times its increment |
| GeneralizedAlpha.AddDivided | src/rigid_pendulum_poc/generalized_alpha_time_integrator.cpp:222-229 | each entry moves by its increment divided by h |
| GeneralizedAlpha.ApplyIncrements | src/rigid_pendulum_poc/generalized_alpha_time_integrator.cpp:222-229 | the update loop adds dx / h to the coordinate increments, gamma' dx to the velocities and beta' dx to the accelerations |
| GeneralizedAlpha.Correct | src/rigid_pendulum_poc/generalized_alpha_time_integrator.cpp:170-229 | one correction keeps the size of every quantity of the iterate and leaves the updated coordinates as they were |
| GeneralizedAlpha.CorrectCoupled | src/rigid_pendulum_poc/generalized_alpha_time_integrator.cpp:222-229 | in every correction, each velocity moves by gamma' h and each acceleration by beta' h times the change of its coordinate increment |
| GeneralizedAlpha.CoupledTransitive | src/rigid_pendulum_poc/generalized_alpha_time_integrator.cpp:155-230 | that coupling composes over successive corrections |
| GeneralizedAlpha.NewtonCoupled | src/rigid_pendulum_poc/generalized_alpha_time_integrator.cpp:155-230 | however many corrections the loop makes, the final velocities and accelerations stay coupled to the starting ones in the same way |
| GeneralizedAlpha.Correction | src/rigid_pendulum_poc/generalized_alpha_time_integrator.cpp:170-229 | the correction method (solve, negate, shift multipliers, update rates) returns exactly `Correct` |
| GeneralizedAlpha.Newton | src/rigid_pendulum_poc/generalized_alpha_time_integrator.cpp:155-230 | the loop makes at most max_iterations iterations and reports convergence exactly when it stopped early |
| GeneralizedAlpha.NewtonAttempt | src/rigid_pendulum_poc/generalized_alpha_time_integrator.cpp:158-228 | an iteration taken below the cap keeps the same bounds: at most max_iterations in all, convergence exactly when the loop stopped early, correctly sized results |
| GeneralizedAlpha.NewtonConverged | src/rigid_pendulum_poc/generalized_alpha_time_integrator.cpp:155-230 | when the loop reports convergence, the residual at the returned iterate has converged |
| GeneralizedAlpha.FinalAlgoAcceleration | src/rigid_pendulum_poc/generalized_alpha_time_integrator.cpp:236-241 | (final a-bar - predicted a-bar) (1 - alpha_m) equals (1 - alpha_f) times the final acceleration, entry by entry |
| GeneralizedAlpha.CorrectAlgoAcceleration | src/rigid_pendulum_poc/generalized_alpha_time_integrator.cpp:236-241 | the closing loop returns exactly `FinalAlgoAcceleration` |
| GeneralizedAlpha.StartIterate | src/rigid_pendulum_poc/generalized_alpha_time_integrator.cpp:80-116 | the Newton loop starts from the predicted increments and velocities, zero accelerations and zero multipliers, all correctly sized |
| GeneralizedAlpha.AlphaStepSpec | src/rigid_pendulum_poc/generalized_alpha_time_integrator.cpp:76-257 | one step keeps the state's shape and returns one multiplier per constraint; iterations ≤ max_iterations; it converged exactly when it used fewer; the returned a-bar is the predicted one corrected by the final accelerations |
| GeneralizedAlpha.AlphaStepNewmark | src/rigid_pendulum_poc/generalized_alpha_time_integrator.cpp:98-230 | after a step, (velocity - predicted velocity) times beta' equals gamma' times the acceleration, entry by entry: the Newmark relation between the corrected rates |
| GeneralizedAlpha.CoupledRatio | src/rigid_pendulum_poc/generalized_alpha_time_integrator.cpp:222-229 | coupled velocity and acceleration changes stand in the ratio gamma' : beta' |
| GeneralizedAlpha.AlphaStepConverged | src/rigid_pendulum_poc/generalized_alpha_time_integrator.cpp:76-257 | when a step reports convergence, the residual at the returned state and multipliers has converged |
| GeneralizedAlpha.GeneralizedAlphaTimeIntegrator.NewtonIteration | src/rigid_pendulum_poc/generalized_alpha_time_integrator.cpp:158-228 | one pass of the loop body: it stops at the updated iterate when the residual has converged, and otherwise `Newton` continues from the corrected iterate it returns |
| GeneralizedAlpha.GeneralizedAlphaTimeIntegrator.Iterations | src/rigid_pendulum_poc/generalized_alpha_time_integrator.cpp:155-230 | the imperative Newton loop ends with the iterate and iteration count of `Newton`; it sets the converged flag when it breaks on convergence and leaves the time and the total count unchanged |
| GeneralizedAlpha.GeneralizedAlphaTimeIntegrator.AlphaStep | src/rigid_pendulum_poc/generalized_alpha_time_integrator.cpp:76-260 | returns the state and multipliers of `AlphaStepSpec`; the step's iteration counter is its iteration count and is added to the total; the converged flag is set if this step converged; the time does not move |
| GeneralizedAlpha.TrajectoryExtended | src/rigid_pendulum_poc/generalized_alpha_time_integrator.cpp:56-74 | appending the next state of the last one extends a trajectory; some step of the extended one converged exactly when some earlier step did or the last one does |
| GeneralizedAlpha.TotalIterationsBounded | src/rigid_pendulum_poc/generalized_alpha_time_integrator.cpp:56-74 | the Newton iterations of the steps of a trajectory of n + 1 states sum to at most n times max_iterations |
| GeneralizedAlpha.GeneralizedAlphaTimeIntegrator.StepFrom | src/rigid_pendulum_poc/generalized_alpha_time_integrator.cpp:63-69 | one pass of the loop in `Integrate`: advance time by one step, append the next state of the last one, and keep the trajectory and the converged flag in step; a step that converged stays recorded; the step's count is exactly the Newton iterations `AlphaStepSpec` specifies from the last state (so at most max_iterations), and the total grows by that count |
| GeneralizedAlpha.GeneralizedAlphaTimeIntegrator.Integrate | src/rigid_pendulum_poc/generalized_alpha_time_integrator.cpp:56-74 | returns numberOfSteps + 1 states; the first is the initial state and each later one follows from its predecessor by one step; time advances by numberOfSteps times the step size; with `counts` the Newton iterations of each step of the trajectory, the last count is the last step's and the total grows by their sum, at most numberOfSteps times max_iterations; with no steps the last count is unchanged; the flag records whether any step converged |
| GeneralizedAlpha.IdentityResidual | src/rigid_pendulum_poc/generalized_alpha_time_integrator.cpp:10-16 | the identity residual has one entry per acceleration and multiplier, all equal to one |
| GeneralizedAlpha.IdentityIterationMatrix | src/rigid_pendulum_poc/generalized_alpha_time_integrator.cpp:18-25 | the identity iteration matrix is the identity of order rates + multipliers |
| GeneralizedAlpha.IdentityStandInsConform | src/rigid_pendulum_poc/generalized_alpha_time_integrator.cpp:10-25 | the identity stand-ins meet every size requirement a step has of its residual and iteration matrix |
| GeneralizedAlpha.IdentityResidualNeverConverges | src/rigid_pendulum_poc/generalized_alpha_time_integrator.cpp:155-168 | with the identity residual a non-empty step never converges and always uses max_iterations iterations |
| GeneralizedAlpha.OneIterationFromRest | tests/unit_tests/rigid_pendulum_poc/test_generalized_alpha_solver.cpp:173-197 | with alpha_f = alpha_m = 0, beta = 0.5, gamma = 1, h = 1 and one iteration, the default state steps to coordinates 0 and v = a = a-bar = -2, not converged |
| GeneralizedAlpha.TwoIterationsFromRest | tests/unit_tests/rigid_pendulum_poc/test_generalized_alpha_solver.cpp:199-219 | with two iterations, the default state steps to coordinates -1 and v = a = a-bar = -4, after two iterations |
| GeneralizedAlpha.TwoIterationsFromRestNewton | tests/unit_tests/rigid_pendulum_poc/test_generalized_alpha_solver.cpp:199-219 | the Newton loop from rest uses both iterations without converging and ends at coordinates -1 with v = a = -4 |
| GeneralizedAlpha.OneIterationFromMotion | tests/unit_tests/rigid_pendulum_poc/test_generalized_alpha_solver.cpp:221-242 | from q = v = a = a-bar = (1, 2, 3), one iteration gives coordinates (2, 4, 6), v = (-1, 0, 1) and a = a-bar = (-2, -2, -2), for any number of constraints |
| GeneralizedAlpha.MotionCorrection | tests/unit_tests/rigid_pendulum_poc/test_generalized_alpha_solver.cpp:221-242 | the correction of the motion iterate by a unit residual gives coordinates (2, 4, 6), v = (-1, 0, 1), a = (-2, -2, -2) and multipliers -1 |
| TimeStepping.TimeStepper.constructor | tests/unit_tests/rigid_pendulum_poc/test_generalized_alpha_solver.cpp:30-32 | a new stepper holds the given time, step, step count and iteration cap, with both counters at zero |
| TimeStepping.TimeStepper.Copy | src/rigid_pendulum_poc/generalized_alpha_time_integrator.cpp:35 | the integrator's copy of a stepper has every field of the original |
| TimeStepping.TimeStepper.AdvanceTimeStep | src/rigid_pendulum_poc/generalized_alpha_time_integrator.cpp:64 | the time advances by one step; the counters do not change |
| TimeStepping.TimeStepper.SetNumberOfIterations | src/rigid_pendulum_poc/generalized_alpha_time_integrator.cpp:156 | the step's counter is set; time and total do not change |
| TimeStepping.TimeStepper.IncrementNumberOfIterations | src/rigid_pendulum_poc/generalized_alpha_time_integrator.cpp:158 | the step's counter grows by one; time and total do not change |
| TimeStepping.TimeStepper.IncrementTotalNumberOfIterations | src/rigid_pendulum_poc/generalized_alpha_time_integrator.cpp:232-233 | the total grows by the given count; time and step's counter do not change |
| Quaternions.MultiplyExamples | tests/unit_tests/rigid_pendulum_poc/test_quaternions.cpp:144-158 | the Hamilton product gives the two products the tests expect |
| Quaternions.MultiplyByIdentity | src/rigid_pendulum_poc/generalized_alpha_time_integrator.cpp:279 | the identity quaternion is a two-sided unit of the product |
| Quaternions.MultiplyLengthSquared | src/rigid_pendulum_poc/generalized_alpha_time_integrator.cpp:279 | the squared length of a product is the product of the squared lengths |
| Quaternions.ExactUnitIsUnit | src/rigid_pendulum_poc/quaternion.cpp:11-13 | a quaternion of squared length exactly one passes the unit test |
| Quaternions.GetUnitQuaternion | src/rigid_pendulum_poc/quaternion.cpp:15-27 | fails (zero length) exactly when the length is close to zero; a unit quaternion is returned as is; otherwise the quaternion divided by its length |
| Quaternions.GetUnitQuaternionIsUnit | src/rigid_pendulum_poc/quaternion.cpp:15-27 | a successful normalisation returns a unit quaternion; when it divides, the result has squared length exactly one |
| Quaternions.GetUnitQuaternionIdempotent | src/rigid_pendulum_poc/quaternion.cpp:15-27 | normalising a normalised quaternion changes nothing |
| Quaternions.GetUnitVector | src/rigid_pendulum_poc/quaternion.cpp:80 | fails exactly when the vector's length is close to zero; a vector of length close to one is returned as is; any other vector is divided by its length |
| Quaternions.QuaternionFromRotationVector | src/rigid_pendulum_poc/quaternion.cpp:29-43 | a rotation vector of length close to zero gives the identity; otherwise cos(θ/2) with the vector scaled by sin(θ/2)/θ |
| Quaternions.QuaternionFromRotationVectorIsUnit | src/rigid_pendulum_poc/quaternion.cpp:29-43 | the quaternion of any rotation vector has squared length one |
| Quaternions.RotationVectorFromQuaternion | src/rigid_pendulum_poc/quaternion.cpp:45-58 | a vector part of squared length close to zero gives the null vector; otherwise the vector part scaled by 2 atan2(s, q0) / s |
| Quaternions.RotationVectorRoundTrip | src/rigid_pendulum_poc/quaternion.cpp:29-58 | for a rotation vector of length in (0, 2π) whose half-angle sine is not close to zero, taking the quaternion and back returns the same vector |
| Quaternions.QuaternionFromAngleAxis | src/rigid_pendulum_poc/quaternion.cpp:60-67 | the scalar part is cos(angle/2) and the vector part is the axis scaled by sin(angle/2) |
| Quaternions.QuaternionFromAngleAxisIsUnit | src/rigid_pendulum_poc/quaternion.cpp:60-67 | a unit axis gives a unit quaternion |
| Quaternions.AngleAxisFromQuaternionAsWritten | src/rigid_pendulum_poc/quaternion.cpp:69-83 | as written: an unwrapped angle close to zero gives (0, x axis); exactly when the vector part is zero and the scalar part negative (a whole turn) it reaches k = 1/sqrt(0), which in C++ yields a non-finite axis and which the model reports as a division-by-zero error; otherwise the angle is the wrapped one, in [-π, π], and the axis has unit length |
| Quaternions.AngleAxisAsWrittenFailsOnWholeTurn | src/rigid_pendulum_poc/quaternion.cpp:69-83 | the quaternion (-1, 0, 0, 0) reaches the division by a zero vector length |
| Quaternions.AngleAxisFromQuaternion | src/rigid_pendulum_poc/quaternion.cpp:69-83 | corrected: every quaternion gives an angle in [-π, π] and an axis of unit length; an angle close to zero gives (0, x axis) |
| Quaternions.NullVectorPartIsNullRotation | src/rigid_pendulum_poc/quaternion.cpp:69-83 | a quaternion with a null vector part has wrapped angle zero |
| Quaternions.QuaternionToRotationMatrix | src/rigid_pendulum_poc/quaternion.cpp:102-122 | fails exactly when the quaternion is not a unit quaternion; otherwise the rotation matrix of the quaternion |
| Quaternions.RotateVector | src/rigid_pendulum_poc/quaternion.cpp:85-100 | fails exactly when the quaternion is not a unit quaternion; otherwise the vector multiplied by the quaternion's rotation matrix |
| Quaternions.MatrixOfNegation | src/rigid_pendulum_poc/quaternion.cpp:102-122 | q and -q give the same rotation matrix |
| Quaternions.RotationMatrixToQuaternion | src/rigid_pendulum_poc/quaternion.cpp:124-144 | the branch taken (positive trace, else the largest diagonal entry) fixes one component as half the square root of a positive number, and that component is positive |
| RigidBodyState.DefaultState | src/rigid_pendulum_poc/state.cpp:5-10 | the default state holds one zero entry in each of its four vectors |
| RigidBodyState.NewMassMatrix | src/rigid_pendulum_poc/state.cpp:23-40 | fails exactly when the mass or a principal moment is not positive, reporting the mass first; otherwise the 6×6 diagonal matrix (m, m, m, Jx, Jy, Jz) |
| RigidBodyState.NewUniformMassMatrix | src/rigid_pendulum_poc/state.cpp:42-44 | the same with all three moments equal |
| RigidBodyState.MassMatrixFromMatrix | src/rigid_pendulum_poc/state.cpp:46-55 | fails exactly when the matrix is not 6×6; otherwise mass and moments are read off the diagonal |
| RigidBodyState.MassMatrixRoundTrip | src/rigid_pendulum_poc/state.cpp:23-55 | rebuilding a mass matrix from its own matrix gives back the same mass matrix |
| RigidBodyState.NewGeneralizedForces | src/rigid_pendulum_poc/state.cpp:57-67 | the generalized-force vector is the forces followed by the moments |
| RigidBodyState.GeneralizedForcesFromVector | src/rigid_pendulum_poc/state.cpp:69-75 | fails exactly when the vector does not have six entries; otherwise the vector is kept and the forces and moments stay zero |
| RigidBodyState.GeneralizedForcesRoundTrip | src/rigid_pendulum_poc/state.cpp:57-75 | the vector of generalized forces is accepted and kept by the vector constructor |
| HeavyTop.ConstraintGradient | src/rigid_pendulum_poc/heavy_top.cpp:44-69 | B is 3×6: minus the identity in the translational block and minus (R times the cross-product matrix of x) in the rotational block |
| HeavyTop.ConstraintForcesClosedForm | src/rigid_pendulum_poc/heavy_top.cpp:7-42 | Bᵀλ is -λ over the translations and x × (Rᵀλ), that is x̃ applied to Rᵀλ, over the rotations |
| HeavyTop.Residual | src/rigid_pendulum_poc/heavy_top.cpp:7-42 | the residual has six entries, each being M a + g + Bᵀλ for that entry |
| HeavyTop.ResidualClosedForm | src/rigid_pendulum_poc/heavy_top.cpp:7-42 | the residual in closed form over translations and rotations |
| HeavyTop.TangentDamping | src/rigid_pendulum_poc/heavy_top.cpp:136-181 | only the rotational block is non-zero; it is ω̃ J - (J ω)~ |
| HeavyTop.IsotropicTopHasNoDamping | src/rigid_pendulum_poc/heavy_top.cpp:136-181 | a top with isotropic inertia has zero tangent damping |
| HeavyTop.TangentStiffness | src/rigid_pendulum_poc/heavy_top.cpp:183-217 | only the rotational block is non-zero; it is x̃ (Rᵀλ)~ |
| Utilities.CrossProductMatrixProduct | src/rigid_pendulum_poc/heavy_top.cpp:183-217 | row i of the product of the cross-product matrices of x and u is u_i xᵀ, less x·u on the diagonal: the general form of the rotational stiffness block |
| HeavyTop.IterationMatrix | src/rigid_pendulum_poc/heavy_top.cpp:71-134 | the matrix of order n + 3 with blocks beta' M + gamma' C + K, Bᵀ, B and a zero constraint block |
| HeavyTop.IterationMatrixOffDiagonalTransposed | src/rigid_pendulum_poc/heavy_top.cpp:71-134 | the constraint column block is the transpose of the constraint row block |
| HeavyTop.RigidPendulumIterationMatrix | src/rigid_pendulum_poc/heavy_top.cpp:219-222 | the rigid-pendulum placeholder iteration matrix is the identity |
| HeavyTop.RigidPendulumResidual | src/rigid_pendulum_poc/heavy_top.cpp:224-227 | the rigid-pendulum placeholder residual is all ones |
| Utilities.WrapAngleToPi | tests/unit_tests/rigid_pendulum_poc/test_math_utilities.cpp:96-262 | the wrapped angle lies in [-π, π] and differs from the input by a whole number of turns |
| Utilities.Transpose | tests/unit_tests/rigid_pendulum_poc/test_math_utilities.cpp:283-288 | the transpose swaps rows and columns |
| Utilities.CrossProductMatrixApplies | tests/unit_tests/rigid_pendulum_poc/test_math_utilities.cpp:290-295 | the cross-product matrix of u applied to v is u × v |
| Utilities.CrossProductMatrixSkew | tests/unit_tests/rigid_pendulum_poc/test_math_utilities.cpp:290-295 | the cross-product matrix is skew-symmetric with a zero diagonal |
| Utilities.MatMulRow3 | tests/unit_tests/rigid_pendulum_poc/test_math_utilities.cpp:305-311 | each entry of row i of a 3×3 product is the sum of three products |

## Left out

- Logging, Kokkos views and their parallel execution: the kernels are modelled as sequential loops over entries of sequences; each entry is written independently, so order does not matter.
- GeneralizedAlpha.GeneralizedAlphaTimeIntegrator.Integrate: in C++ `AlphaStep` updates the velocity, acceleration and algorithmic-acceleration views of its input state in place, and the state it returns holds the same velocity and acceleration views. So the earlier states of the returned vector, and the caller's initial state, end up showing later values. The model works on values: `Trajectory(s, states)` holds of the model's states, not of the C++ vector as returned.
- Floating point: `double` is modelled as `real`, so rounding, overflow and NaN are not captured.
- The C math library: `sqrt`, `sin`, `cos`, `atan2` and pi are a parameter constrained only by `Lawful`.
- `solve_linear_system`: it is a parameter; the unit-test scenarios assume only that it returns the right-hand side for an identity matrix.
- The headers `time_stepper.h`, `utilities.h`, `vector.h`, `quaternion.h` and `generalized_alpha_time_integrator.h` are not part of this model. The quaternion and vector operators, `close_to`, `wrap_angle_to_pi`, the stepper and the default arguments are defined from their use.
- GeneralizedAlpha.kCONVERGENCETOLERANCE: the value 1e-6 is assumed; the header that fixes it is not part of this model. `close_to` is likewise taken as |a - b| < 1e-6.
- The mass matrix and generalized forces that `Integrate` and `AlphaStep` take and never use are not parameters of the model's methods.
- The four-argument `Integrate` of the tests, which passes a view as the constraint count, is modelled with an arbitrary constraint count.
- GeneralizedAlpha.Conforming: a step also requires alpha_f ≠ 1, alpha_m ≠ 1, beta ≠ 0 and h ≠ 0. In C++ these divide by zero and produce non-finite numbers.
- GeneralizedAlpha.UpdatableShape: the coordinate update is modelled for coordinate vectors of at most three entries or of exactly seven. The C++ reads entries 0..6 whatever the size, which for other shapes reads out of bounds.
- GeneralizedAlpha.Conforming: with preconditioning the residual must have at least six entries, because the C++ scales entries 0..5 whatever the size.
- GeneralizedAlpha.GeneralizedAlphaTimeIntegrator.Iterations: `is_converged_` is never reset to false, so the flag records whether any step so far converged. This is modelled as written.
- GeneralizedAlpha.Correct: the preconditioners are rebuilt in each correction rather than once per step; they depend only on fixed quantities, so the values are the same.
- HeavyTop.IterationMatrix: requires a mass matrix of order at most six. The C++ adds the 6×6 damping and stiffness matrices entry by entry to an n×n mass block and reads them out of bounds for n > 6; the program's own `MassMatrix` is always 6×6.
- HeavyTop.TangentStiffness: the closed form of x̃ (Rᵀλ)~ for the heavy top is not restated; only the general product of two cross-product matrices is proved.
- Quaternions.RotationMatrixToQuaternion: states only the component each branch singles out; the other three components are not stated.

## Findings

| source | as written | input that shows it | evidently intended | confidence | as-written member | corrected member |
|---|---|---|---|---|---|---|
| src/rigid_pendulum_poc/quaternion.cpp:69-83 | the null-rotation test looks at the angle before it is wrapped; a whole turn passes the test and then divides by a zero vector length | the quaternion (-1, 0, 0, 0): angle 2π, vector length 0 | a whole turn is a null rotation and returns angle 0 with the x axis | not executed | Quaternions.AngleAxisFromQuaternionAsWritten, Quaternions.AngleAxisAsWrittenFailsOnWholeTurn | Quaternions.AngleAxisFromQuaternion |

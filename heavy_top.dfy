/**
 * Assembly of the heavy-top problem: the constraint gradient B = [-I | -R X~], the residual
 * M a + g + B^T lambda, the tangent damping and stiffness matrices (zero except their lower-right
 * 3 by 3 blocks), and the block iteration matrix [[M beta' + C gamma' + K, B^T], [B, 0]].
 * `X~` is the cross-product matrix of the position, `R` the rotation matrix, `lambda` the
 * Lagrange multipliers.
 */
module HeavyTop {

  import opened Utilities

  /** `heavy_top_constraint_gradient_matrix`: the 3 by 6 matrix [-I | -(R X~)]. */
  function ConstraintGradient(x: Vec, R: Mat): (B: Mat)
    requires |x| == 3 && IsMatrix(R, 3, 3)
    ensures IsMatrix(B, 3, 6)
    ensures forall i, j :: 0 <= i < 3 && 0 <= j < 3 ==> B[i][j] == if i == j then -1.0 else 0.0
    ensures forall i, j :: 0 <= i < 3 && 0 <= j < 3 ==>
      B[i][3 + j] == -MatMul(R, CrossProductMatrix(x), 3, 3, 3)[i][j]
  {
    var I := Identity(3);
    var RX := MatMul(R, CrossProductMatrix(x), 3, 3, 3);
    seq(3, i requires 0 <= i < 3 =>
      seq(6, j requires 0 <= j < 6 => if j < 3 then -I[i][j] else -RX[i][j - 3]))
  }

  /** B^T lambda, the constraint-force term of the residual. */
  function ConstraintForces(x: Vec, R: Mat, lambda: Vec): (f: Vec)
    requires |x| == 3 && IsMatrix(R, 3, 3) && |lambda| == 3
    ensures |f| == 6
  {
    MatVec(Transpose(ConstraintGradient(x, R), 3, 6), 6, 3, lambda)
  }

  /**
   * The constraint forces in closed form: -lambda on the translational rows and
   * x cross (R^T lambda) on the rotational rows.
   */
  lemma ConstraintForcesClosedForm(x: Vec, R: Mat, lambda: Vec)
    requires |x| == 3 && IsMatrix(R, 3, 3) && |lambda| == 3
    ensures ConstraintForces(x, R, lambda)
         == [-lambda[0], -lambda[1], -lambda[2]]
          + Cross(x, MatVec(Transpose(R, 3, 3), 3, 3, lambda))
  {
    var f := ConstraintForces(x, R, lambda);
    var u := MatVec(Transpose(R, 3, 3), 3, 3, lambda);
    var e := [-lambda[0], -lambda[1], -lambda[2]] + Cross(x, u);
    TransposeApplied(ConstraintGradient(x, R), lambda);
    assert f[0] == e[0] && f[1] == e[1] && f[2] == e[2];
    RotationalEntries(x, R, lambda);
    assert f[3] == e[3] && f[4] == e[4] && f[5] == e[5];
  }

  /** Rows 3 to 5 of B^T lambda are x cross (R^T lambda). */
  lemma RotationalEntries(x: Vec, R: Mat, lambda: Vec)
    requires |x| == 3 && IsMatrix(R, 3, 3) && |lambda| == 3
    ensures var f, u := ConstraintForces(x, R, lambda), MatVec(Transpose(R, 3, 3), 3, 3, lambda);
      f[3..] == Cross(x, u)
  {
    var f := ConstraintForces(x, R, lambda);
    var u := MatVec(Transpose(R, 3, 3), 3, 3, lambda);
    var c := Cross(x, u);
    RotationalEntry(x, R, lambda, u, 0);
    RotationalEntry(x, R, lambda, u, 1);
    RotationalEntry(x, R, lambda, u, 2);
    assert f[3..][0] == c[0] && f[3..][1] == c[1] && f[3..][2] == c[2];
  }

  /** Row 3 + k of B^T lambda is entry k of x cross u, where u is R^T lambda. */
  lemma RotationalEntry(x: Vec, R: Mat, lambda: Vec, u: Vec, k: nat)
    requires |x| == 3 && IsMatrix(R, 3, 3) && |lambda| == 3 && k < 3
    requires u == MatVec(Transpose(R, 3, 3), 3, 3, lambda)
    ensures ConstraintForces(x, R, lambda)[3 + k] == Cross(x, u)[k]
  {
    RotationalForceEntry(x, R, lambda, k);
    ProductColumnDot(R, CrossProductMatrix(x), lambda, k);
    CrossProductMatrixColumn(x, u, k);
  }

  /** Row 3 + k of B^T lambda is minus column k of R X~ dotted with lambda. */
  lemma RotationalForceEntry(x: Vec, R: Mat, lambda: Vec, k: nat)
    requires |x| == 3 && IsMatrix(R, 3, 3) && |lambda| == 3 && k < 3
    ensures var f, RX := ConstraintForces(x, R, lambda), MatMul(R, CrossProductMatrix(x), 3, 3, 3);
      f[3 + k] == -(RX[0][k] * lambda[0] + RX[1][k] * lambda[1] + RX[2][k] * lambda[2])
  {
    TransposeApplied(ConstraintGradient(x, R), lambda);
  }

  /** B^T lambda, column by column, for a 3 by 6 matrix B. */
  lemma TransposeApplied(B: Mat, lambda: Vec)
    requires IsMatrix(B, 3, 6) && |lambda| == 3
    ensures var f := MatVec(Transpose(B, 3, 6), 6, 3, lambda);
      forall j :: 0 <= j < 6 ==> f[j] == B[0][j] * lambda[0] + B[1][j] * lambda[1] + B[2][j] * lambda[2]
  {
    var BT := Transpose(B, 3, 6);
    forall j | 0 <= j < 6
      ensures Dot(BT[j], lambda) == B[0][j] * lambda[0] + B[1][j] * lambda[1] + B[2][j] * lambda[2]
    {
      Dot3(BT[j], lambda);
    }
  }

  /** `heavy_top_residual_vector`: M a + g + B^T lambda, six entries. */
  function Residual(M: Mat, R: Mat, a: Vec, g: Vec, x: Vec, lambda: Vec): (r: Vec)
    requires IsMatrix(M, 6, 6) && IsMatrix(R, 3, 3)
    requires |a| == 6 && |g| == 6 && |x| == 3 && |lambda| == 3
    ensures |r| == 6
    ensures forall i :: 0 <= i < 6 ==>
      r[i] == MatVec(M, 6, 6, a)[i] + g[i] + ConstraintForces(x, R, lambda)[i]
  {
    var first := MatVec(M, 6, 6, a);
    var third := ConstraintForces(x, R, lambda);
    seq(6, i requires 0 <= i < 6 => first[i] + g[i] + third[i])
  }

  /** The residual's translational rows carry -lambda, its rotational rows x cross (R^T lambda). */
  lemma ResidualClosedForm(M: Mat, R: Mat, a: Vec, g: Vec, x: Vec, lambda: Vec)
    requires IsMatrix(M, 6, 6) && IsMatrix(R, 3, 3)
    requires |a| == 6 && |g| == 6 && |x| == 3 && |lambda| == 3
    ensures var r, Ma := Residual(M, R, a, g, x, lambda), MatVec(M, 6, 6, a);
      var c := Cross(x, MatVec(Transpose(R, 3, 3), 3, 3, lambda));
      && (forall i :: 0 <= i < 3 ==> r[i] == Ma[i] + g[i] - lambda[i])
      && (forall k :: 0 <= k < 3 ==> r[3 + k] == Ma[3 + k] + g[3 + k] + c[k])
  {
    ConstraintForcesClosedForm(x, R, lambda);
  }

  /** A 6 by 6 matrix that is zero except for its lower-right 3 by 3 block `N`. */
  function LowerRightBlock(N: Mat): (T: Mat)
    requires IsMatrix(N, 3, 3)
    ensures IsMatrix(T, 6, 6)
    ensures forall i, j :: 0 <= i < 6 && 0 <= j < 6 ==>
      T[i][j] == if 3 <= i && 3 <= j then N[i - 3][j - 3] else 0.0
  {
    seq(6, i requires 0 <= i < 6 => seq(6, j requires 0 <= j < 6 =>
      if i < 3 && j < 3 then 0.0
      else if i < 3 && j >= 3 then 0.0
      else if i >= 3 && j < 3 then 0.0
      else N[i - 3][j - 3]))
  }

  /** `heavy_top_tangent_damping_matrix`: lower-right block Omega~ J - (J Omega)~. */
  function TangentDamping(omega: Vec, J: Mat): (C: Mat)
    requires |omega| == 3 && IsMatrix(J, 3, 3)
    ensures IsMatrix(C, 6, 6)
    ensures forall i, j :: 0 <= i < 6 && 0 <= j < 6 && (i < 3 || j < 3) ==> C[i][j] == 0.0
    ensures forall i, j :: 0 <= i < 3 && 0 <= j < 3 ==>
      C[3 + i][3 + j] == MatMul(CrossProductMatrix(omega), J, 3, 3, 3)[i][j]
                       - CrossProductMatrix(MatVec(J, 3, 3, omega))[i][j]
  {
    LowerRightBlock(DampingBlock(omega, J))
  }

  /** The gyroscopic block Omega~ J - (J Omega)~. */
  function DampingBlock(omega: Vec, J: Mat): (N: Mat)
    requires |omega| == 3 && IsMatrix(J, 3, 3)
    ensures IsMatrix(N, 3, 3)
    ensures forall i, j :: 0 <= i < 3 && 0 <= j < 3 ==>
      N[i][j] == MatMul(CrossProductMatrix(omega), J, 3, 3, 3)[i][j]
               - CrossProductMatrix(MatVec(J, 3, 3, omega))[i][j]
  {
    var first := MatMul(CrossProductMatrix(omega), J, 3, 3, 3);
    var second := CrossProductMatrix(MatVec(J, 3, 3, omega));
    seq(3, i requires 0 <= i < 3 => seq(3, j requires 0 <= j < 3 => first[i][j] - second[i][j]))
  }

  /** c times the 3 by 3 identity: the inertia of a body with equal principal moments. */
  function IsotropicInertia(c: real): (J: Mat)
    ensures IsMatrix(J, 3, 3)
    ensures forall i, j :: 0 <= i < 3 && 0 <= j < 3 ==> J[i][j] == if i == j then c else 0.0
  {
    seq(3, i => seq(3, j => if i == j then c else 0.0))
  }

  /** A body with equal principal moments has no gyroscopic damping: the matrix is zero. */
  lemma IsotropicTopHasNoDamping(omega: Vec, c: real)
    requires |omega| == 3
    ensures var C := TangentDamping(omega, IsotropicInertia(c));
      forall i, j :: 0 <= i < 6 && 0 <= j < 6 ==> C[i][j] == 0.0
  {
    IsotropicDampingBlock(omega, c);
  }

  /** The gyroscopic block of a body with equal principal moments is zero. */
  lemma IsotropicDampingBlock(omega: Vec, c: real)
    requires |omega| == 3
    ensures var N := DampingBlock(omega, IsotropicInertia(c));
      forall i, j :: 0 <= i < 3 && 0 <= j < 3 ==> N[i][j] == 0.0
  {
    forall i, j | 0 <= i < 3 && 0 <= j < 3
      ensures DampingBlock(omega, IsotropicInertia(c))[i][j] == 0.0
    {
      IsotropicDampingTerms(omega, c, i, j);
    }
  }

  /** Both terms of an entry of the gyroscopic block of an isotropic body are c times W[i][j]. */
  lemma IsotropicDampingTerms(omega: Vec, c: real, i: nat, j: nat)
    requires |omega| == 3 && i < 3 && j < 3
    ensures MatMul(CrossProductMatrix(omega), IsotropicInertia(c), 3, 3, 3)[i][j] == c * CrossProductMatrix(omega)[i][j]
    ensures CrossProductMatrix(MatVec(IsotropicInertia(c), 3, 3, omega))[i][j] == c * CrossProductMatrix(omega)[i][j]
  {
    IsotropicProduct(CrossProductMatrix(omega), c);
    IsotropicMomentum(omega, c, i, j);
  }

  /** Entry (i, j) of the cross-product matrix of (c I) w is c times that of w. */
  lemma IsotropicMomentum(w: Vec, c: real, i: nat, j: nat)
    requires |w| == 3 && i < 3 && j < 3
    ensures CrossProductMatrix(MatVec(IsotropicInertia(c), 3, 3, w))[i][j] == c * CrossProductMatrix(w)[i][j]
  {
    var momentum := MatVec(IsotropicInertia(c), 3, 3, w);
    IsotropicApplied(w, c);
    CrossProductMatrixScaled(w, momentum, c);
  }

  /** W (c I) == c W. */
  lemma IsotropicProduct(W: Mat, c: real)
    requires IsMatrix(W, 3, 3)
    ensures var P := MatMul(W, IsotropicInertia(c), 3, 3, 3);
      forall i, j :: 0 <= i < 3 && 0 <= j < 3 ==> P[i][j] == c * W[i][j]
  {
    var J := IsotropicInertia(c);
    forall i, j | 0 <= i < 3 && 0 <= j < 3
      ensures MatMul(W, J, 3, 3, 3)[i][j] == c * W[i][j]
    {
      var col := Column(J, 3, 3, j);
      Dot3(W[i], col);
      assert col[0] == (if j == 0 then c else 0.0);
      assert col[1] == (if j == 1 then c else 0.0);
      assert col[2] == (if j == 2 then c else 0.0);
    }
  }

  /** (c I) w == c w. */
  lemma IsotropicApplied(w: Vec, c: real)
    requires |w| == 3
    ensures var v := MatVec(IsotropicInertia(c), 3, 3, w);
      v[0] == c * w[0] && v[1] == c * w[1] && v[2] == c * w[2]
  {
    MatVec3(IsotropicInertia(c), w);
  }

  /** `heavy_top_tangent_stiffness_matrix`: lower-right block X~ (R^T lambda)~. */
  function TangentStiffness(x: Vec, R: Mat, lambda: Vec): (K: Mat)
    requires |x| == 3 && IsMatrix(R, 3, 3) && |lambda| == 3
    ensures IsMatrix(K, 6, 6)
    ensures forall i, j :: 0 <= i < 6 && 0 <= j < 6 && (i < 3 || j < 3) ==> K[i][j] == 0.0
    ensures forall i, j :: 0 <= i < 3 && 0 <= j < 3 ==>
      K[3 + i][3 + j] == MatMul(CrossProductMatrix(x),
        CrossProductMatrix(MatVec(Transpose(R, 3, 3), 3, 3, lambda)), 3, 3, 3)[i][j]
  {
    LowerRightBlock(StiffnessBlock(x, R, lambda))
  }

  /**
   * The stiffness block X~ (R^T lambda)~. Its contract names the product so that callers see it
   * without unfolding the body; the properties are proved about `TangentStiffness`.
   */
  function StiffnessBlock(x: Vec, R: Mat, lambda: Vec): (N: Mat)
    requires |x| == 3 && IsMatrix(R, 3, 3) && |lambda| == 3
    ensures N == MatMul(CrossProductMatrix(x),
      CrossProductMatrix(MatVec(Transpose(R, 3, 3), 3, 3, lambda)), 3, 3, 3)
    ensures IsMatrix(N, 3, 3)
  {
    var u := MatVec(Transpose(R, 3, 3), 3, 3, lambda);
    MatMul(CrossProductMatrix(x), CrossProductMatrix(u), 3, 3, 3)
  }

  /**
   * `heavy_top_iteration_matrix` for an `n` by `n` mass matrix (the reads stay in bounds only
   * for n at most 6): [[M beta' + C gamma' + K, B^T], [B, 0]] of size n + 3.
   */
  function IterationMatrix(betaPrime: real, gammaPrime: real, M: Mat, n: nat, J: Mat, R: Mat,
                           omega: Vec, x: Vec, lambda: Vec): (S: Mat)
    requires IsMatrix(M, n, n) && n <= 6 && IsMatrix(J, 3, 3) && IsMatrix(R, 3, 3)
    requires |omega| == 3 && |x| == 3 && |lambda| == 3
    ensures IsMatrix(S, n + 3, n + 3)
    ensures var C, K := TangentDamping(omega, J), TangentStiffness(x, R, lambda);
      forall i, j :: 0 <= i < n && 0 <= j < n ==>
        S[i][j] == M[i][j] * betaPrime + C[i][j] * gammaPrime + K[i][j]
    ensures var B := ConstraintGradient(x, R);
      forall i, j :: 0 <= i < n && 0 <= j < 3 ==> S[i][n + j] == B[j][i] && S[n + j][i] == B[j][i]
    ensures forall i, j :: n <= i < n + 3 && n <= j < n + 3 ==> S[i][j] == 0.0
  {
    var B := ConstraintGradient(x, R);
    var element1 := Combine(M, TangentDamping(omega, J), TangentStiffness(x, R, lambda),
      betaPrime, gammaPrime, n);
    var element2 := Transpose(B, 3, 6);
    var element3 := B;
    var element4 := ZeroMatrix(3, 3);
    Assemble(element1, element2, element3, element4, n)
  }

  /**
   * The leading n by n block of M beta' + C gamma' + K. The contract gives each entry so that
   * `IterationMatrix` need not unfold the body; it is a helper of that function.
   */
  function Combine(M: Mat, C: Mat, K: Mat, betaPrime: real, gammaPrime: real, n: nat): (E: Mat)
    requires n <= 6 && IsMatrix(M, n, n) && IsMatrix(C, 6, 6) && IsMatrix(K, 6, 6)
    ensures IsMatrix(E, n, n)
    ensures forall i, j :: 0 <= i < n && 0 <= j < n ==>
      E[i][j] == M[i][j] * betaPrime + C[i][j] * gammaPrime + K[i][j]
  {
    seq(n, i requires 0 <= i < n => seq(n, j requires 0 <= j < n =>
      M[i][j] * betaPrime + C[i][j] * gammaPrime + K[i][j]))
  }

  /**
   * The block matrix [[E1, E2], [E3, E4]] of size n + 3, with E1 n by n, E4 3 by 3, and the
   * off-diagonal blocks read over the first n rows (columns) of 6. The contract gives each block
   * so that `IterationMatrix` need not unfold the body; it is a helper of that function.
   */
  function Assemble(E1: Mat, E2: Mat, E3: Mat, E4: Mat, n: nat): (S: Mat)
    requires n <= 6 && IsMatrix(E1, n, n) && IsMatrix(E2, 6, 3) && IsMatrix(E3, 3, 6)
    requires IsMatrix(E4, 3, 3)
    ensures IsMatrix(S, n + 3, n + 3)
    ensures forall i, j :: 0 <= i < n && 0 <= j < n ==> S[i][j] == E1[i][j]
    ensures forall i, j :: 0 <= i < n && n <= j < n + 3 ==> S[i][j] == E2[i][j - n]
    ensures forall i, j :: n <= i < n + 3 && 0 <= j < n ==> S[i][j] == E3[i - n][j]
    ensures forall i, j :: n <= i < n + 3 && n <= j < n + 3 ==> S[i][j] == E4[i - n][j - n]
  {
    seq(n + 3, i requires 0 <= i < n + 3 => seq(n + 3, j requires 0 <= j < n + 3 =>
      if i < n && j < n then E1[i][j]
      else if i < n && j >= n then E2[i][j - n]
      else if i >= n && j < n then E3[i - n][j]
      else E4[i - n][j - n]))
  }

  /** The iteration matrix's two off-diagonal blocks are each other's transpose. */
  lemma IterationMatrixOffDiagonalTransposed(betaPrime: real, gammaPrime: real, M: Mat, n: nat,
                                             J: Mat, R: Mat, omega: Vec, x: Vec, lambda: Vec)
    requires IsMatrix(M, n, n) && n <= 6 && IsMatrix(J, 3, 3) && IsMatrix(R, 3, 3)
    requires |omega| == 3 && |x| == 3 && |lambda| == 3
    ensures var S := IterationMatrix(betaPrime, gammaPrime, M, n, J, R, omega, x, lambda);
      forall i, j :: 0 <= i < n && n <= j < n + 3 ==> S[i][j] == S[j][i]
  {
    var S := IterationMatrix(betaPrime, gammaPrime, M, n, J, R, omega, x, lambda);
    forall i, j | 0 <= i < n && n <= j < n + 3
      ensures S[i][j] == S[j][i]
    {
      assert S[i][n + (j - n)] == S[n + (j - n)][i];
    }
  }

  /** `rigid_pendulum_iteration_matrix`: a placeholder returning the identity of the given size. */
  function RigidPendulumIterationMatrix(size: nat): (S: Mat)
    ensures IsMatrix(S, size, size)
    ensures forall i, j :: 0 <= i < size && 0 <= j < size ==> S[i][j] == if i == j then 1.0 else 0.0
  {
    Identity(size)
  }

  /** `rigid_pendulum_residual_vector`: a placeholder returning a vector of ones. */
  function RigidPendulumResidual(size: nat): (r: Vec)
    ensures |r| == size && forall i :: 0 <= i < size ==> r[i] == 1.0
  {
    Ones(size)
  }
}

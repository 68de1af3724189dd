/**
 * The small dense linear-algebra helpers and numeric utilities the rigid-body code calls
 * (`close_to`, `wrap_angle_to_pi`, `create_identity_vector`, `create_identity_matrix`,
 * `transpose_matrix`, `multiply_matrix_with_matrix`, `multiply_matrix_with_vector`,
 * `create_cross_product_matrix`). Their header is not part of this model; each is defined here
 * as far as the unit tests fix it. Kokkos views become sequences: a vector is `seq<real>`,
 * a matrix is a sequence of rows.
 */
module Utilities {

  import opened RealArith

  type Vec = seq<real>
  type Mat = seq<seq<real>>

  /** Tolerance of `close_to`; the tests fix it strictly between 1e-7 and 1e-5. */
  const kTOLERANCE: real := 0.000001

  /** `close_to(a, b)`: the two values differ by less than the tolerance. */
  predicate CloseTo(a: real, b: real) {
    -kTOLERANCE < a - b < kTOLERANCE
  }

  /** The value of `x` truncated toward zero, as C's conversion to an integer does. */
  function Trunc(x: real): (n: int)
    ensures 0.0 <= x ==> n as real <= x < n as real + 1.0
    ensures x < 0.0 ==> n as real - 1.0 < x <= n as real
  {
    if 0.0 <= x then x.Floor else -((-x).Floor)
  }

  /** C's `fmod`: the remainder of `x / y` with the sign of `x`. */
  function FMod(x: real, y: real): (r: real)
    requires 0.0 < y
    ensures 0.0 <= x ==> 0.0 <= r < y
    ensures x < 0.0 ==> -y < r <= 0.0
    ensures x - r == Trunc(x / y) as real * y
  {
    var n := Trunc(x / y);
    TruncScaled(x, y);
    x - n as real * y
  }

  /** The whole multiple of `y` that C's `fmod` removes from `x`. */
  lemma TruncScaled(x: real, y: real)
    requires 0.0 < y
    ensures 0.0 <= x ==> Trunc(x / y) as real * y <= x < Trunc(x / y) as real * y + y
    ensures x < 0.0 ==> Trunc(x / y) as real * y - y < x <= Trunc(x / y) as real * y
  {
    var q := x / y;
    assert q * y == x;
    if 0.0 <= x {
      if q < 0.0 {
        ScaleBounds(q, 0.0, y);
      }
      BelowNext(x, y, q, Trunc(q) as real);
    } else {
      if 0.0 <= q {
        ScaleBounds(0.0, q, y);
      }
      AbovePrevious(x, y, q, Trunc(q) as real);
    }
  }

  /** If `q y` is `x` and `m <= q < m + 1`, then `m y <= x < m y + y`. */
  lemma BelowNext(x: real, y: real, q: real, m: real)
    requires 0.0 < y && q * y == x && m <= q < m + 1.0
    ensures m * y <= x < m * y + y
  {
    ScaleBounds(m, q, y);
    var next := m + 1.0;
    ScaleBounds(q, next, y);
    assert x < next * y;
    assert next * y == m * y + y;
  }

  /** If `q y` is `x` and `m - 1 < q <= m`, then `m y - y < x <= m y`. */
  lemma AbovePrevious(x: real, y: real, q: real, m: real)
    requires 0.0 < y && q * y == x && m - 1.0 < q <= m
    ensures m * y - y < x <= m * y
  {
    var previous := m - 1.0;
    ScaleBounds(previous, q, y);
    ScaleBounds(q, m, y);
    assert previous * y < x;
    assert previous * y == m * y - y;
  }

  lemma ScaleBounds(a: real, b: real, y: real)
    requires 0.0 < y
    ensures a <= b ==> a * y <= b * y
    ensures a < b ==> a * y < b * y
  {
    if a <= b {
      NonNegativeProduct(b - a, y);
    }
    if a < b {
      PositiveProduct(b - a, y);
    }
  }

  /** `k` whole turns. */
  function Turns(pi: real, k: int): real {
    k as real * (2.0 * pi)
  }

  /** `wrap_angle_to_pi`: the angle reduced by whole turns into [-pi, pi]. */
  function WrapAngleToPi(pi: real, angle: real): (r: real)
    requires 0.0 < pi
    ensures -pi <= r <= pi
    ensures exists k: int :: angle - r == Turns(pi, k)
  {
    var w := FMod(angle, 2.0 * pi);
    var n := Trunc(angle / (2.0 * pi));
    if w > pi then
      assert angle - (w - 2.0 * pi) == Turns(pi, n + 1);
      w - 2.0 * pi
    else if w < -pi then
      assert angle - (w + 2.0 * pi) == Turns(pi, n - 1);
      w + 2.0 * pi
    else
      assert angle - w == Turns(pi, n);
      w
  }

  /** `create_identity_vector(n)`: a vector of `n` ones. */
  function Ones(n: nat): (v: Vec)
    ensures |v| == n && forall i :: 0 <= i < n ==> v[i] == 1.0
  {
    seq(n, i => 1.0)
  }

  /** A freshly allocated Kokkos view: `n` zeros. */
  function Zeros(n: nat): (v: Vec)
    ensures |v| == n && forall i :: 0 <= i < n ==> v[i] == 0.0
  {
    seq(n, i => 0.0)
  }

  /** `A` has `rows` rows of `cols` entries each. */
  predicate IsMatrix(A: Mat, rows: nat, cols: nat) {
    |A| == rows && forall i :: 0 <= i < rows ==> |A[i]| == cols
  }

  /** `create_identity_matrix(n)`. */
  function Identity(n: nat): (I: Mat)
    ensures IsMatrix(I, n, n)
    ensures forall i, j :: 0 <= i < n && 0 <= j < n ==> I[i][j] == if i == j then 1.0 else 0.0
  {
    seq(n, i => seq(n, j => if i == j then 1.0 else 0.0))
  }

  /** An all-zero matrix, as a freshly allocated 2-D view is. */
  function ZeroMatrix(rows: nat, cols: nat): (Z: Mat)
    ensures IsMatrix(Z, rows, cols)
    ensures forall i, j :: 0 <= i < rows && 0 <= j < cols ==> Z[i][j] == 0.0
  {
    seq(rows, i => seq(cols, j => 0.0))
  }

  /** The inner product of two vectors of equal length. */
  function Dot(u: Vec, v: Vec): real
    requires |u| == |v|
  {
    if |u| == 0 then 0.0 else u[0] * v[0] + Dot(u[1..], v[1..])
  }

  lemma Dot3(u: Vec, v: Vec)
    requires |u| == |v| == 3
    ensures Dot(u, v) == u[0] * v[0] + u[1] * v[1] + u[2] * v[2]
  {
    assert u[1..][1..][1..] == [] && v[1..][1..][1..] == [];
    assert Dot(u[1..][1..], v[1..][1..]) == u[2] * v[2];
    assert Dot(u[1..], v[1..]) == u[1] * v[1] + u[2] * v[2];
  }

  /** The dot product of two vectors whose entry-wise products all vanish. */
  lemma {:induction false} DotOfZeroProducts(u: Vec, v: Vec)
    requires |u| == |v| && forall t :: 0 <= t < |u| ==> u[t] * v[t] == 0.0
    ensures Dot(u, v) == 0.0
  {
    if |u| > 0 {
      DotOfZeroProducts(u[1..], v[1..]);
    }
  }

  /** A dot product in which only the products at index `k` can be non-zero is that one product. */
  lemma {:induction false} DotSingleEntry(u: Vec, v: Vec, k: nat)
    requires |u| == |v| && k < |u|
    requires forall t :: 0 <= t < |u| && t != k ==> u[t] * v[t] == 0.0
    ensures Dot(u, v) == u[k] * v[k]
  {
    if k == 0 {
      DotOfZeroProducts(u[1..], v[1..]);
    } else {
      DotSingleEntry(u[1..], v[1..], k - 1);
    }
  }

  /** `transpose_matrix`. */
  function Transpose(A: Mat, rows: nat, cols: nat): (T: Mat)
    requires IsMatrix(A, rows, cols)
    ensures IsMatrix(T, cols, rows)
    ensures forall i, j :: 0 <= i < cols && 0 <= j < rows ==> T[i][j] == A[j][i]
  {
    seq(cols, j requires 0 <= j < cols => seq(rows, i requires 0 <= i < rows => A[i][j]))
  }

  /** Column `j` of `A`. */
  function Column(A: Mat, rows: nat, cols: nat, j: nat): (c: Vec)
    requires IsMatrix(A, rows, cols) && j < cols
    ensures |c| == rows && forall i :: 0 <= i < rows ==> c[i] == A[i][j]
  {
    seq(rows, i requires 0 <= i < rows => A[i][j])
  }

  /** `multiply_matrix_with_vector`: row `i` of the result is row `i` of `A` dotted with `v`. */
  function MatVec(A: Mat, rows: nat, cols: nat, v: Vec): (w: Vec)
    requires IsMatrix(A, rows, cols) && |v| == cols
    ensures |w| == rows && forall i :: 0 <= i < rows ==> w[i] == Dot(A[i], v)
  {
    seq(rows, i requires 0 <= i < rows => Dot(A[i], v))
  }

  /** `multiply_matrix_with_matrix` of an `n` by `k` and a `k` by `p` matrix. */
  function MatMul(A: Mat, B: Mat, n: nat, k: nat, p: nat): (C: Mat)
    requires IsMatrix(A, n, k) && IsMatrix(B, k, p)
    ensures IsMatrix(C, n, p)
    ensures forall i, j :: 0 <= i < n && 0 <= j < p ==> C[i][j] == Dot(A[i], Column(B, k, p, j))
  {
    seq(n, i requires 0 <= i < n => seq(p, j requires 0 <= j < p => Dot(A[i], Column(B, k, p, j))))
  }

  /** Row `i` of a 3×3 product. */
  lemma MatMulRow3(A: Mat, B: Mat, i: nat)
    requires IsMatrix(A, 3, 3) && IsMatrix(B, 3, 3) && i < 3
    ensures MatMul(A, B, 3, 3, 3)[i][0] == A[i][0] * B[0][0] + A[i][1] * B[1][0] + A[i][2] * B[2][0]
    ensures MatMul(A, B, 3, 3, 3)[i][1] == A[i][0] * B[0][1] + A[i][1] * B[1][1] + A[i][2] * B[2][1]
    ensures MatMul(A, B, 3, 3, 3)[i][2] == A[i][0] * B[0][2] + A[i][1] * B[1][2] + A[i][2] * B[2][2]
  {
    Dot3(A[i], Column(B, 3, 3, 0));
    Dot3(A[i], Column(B, 3, 3, 1));
    Dot3(A[i], Column(B, 3, 3, 2));
  }

  /** Column `j` of the product of two 3 by 3 matrices. */
  lemma MatMulColumn3(A: Mat, B: Mat, j: nat)
    requires IsMatrix(A, 3, 3) && IsMatrix(B, 3, 3) && j < 3
    ensures var C := MatMul(A, B, 3, 3, 3);
      && C[0][j] == A[0][0] * B[0][j] + A[0][1] * B[1][j] + A[0][2] * B[2][j]
      && C[1][j] == A[1][0] * B[0][j] + A[1][1] * B[1][j] + A[1][2] * B[2][j]
      && C[2][j] == A[2][0] * B[0][j] + A[2][1] * B[1][j] + A[2][2] * B[2][j]
  {
    var c := Column(B, 3, 3, j);
    Dot3(A[0], c);
    Dot3(A[1], c);
    Dot3(A[2], c);
  }

  /** A 3 by 3 matrix times a 3-vector, entry by entry. */
  lemma MatVec3(A: Mat, v: Vec)
    requires IsMatrix(A, 3, 3) && |v| == 3
    ensures MatVec(A, 3, 3, v)[0] == A[0][0] * v[0] + A[0][1] * v[1] + A[0][2] * v[2]
    ensures MatVec(A, 3, 3, v)[1] == A[1][0] * v[0] + A[1][1] * v[1] + A[1][2] * v[2]
    ensures MatVec(A, 3, 3, v)[2] == A[2][0] * v[0] + A[2][1] * v[1] + A[2][2] * v[2]
  {
    Dot3(A[0], v);
    Dot3(A[1], v);
    Dot3(A[2], v);
  }

  /** A 3 by 3 matrix transposed and applied to a 3-vector, entry by entry. */
  lemma TransposeApplied3(A: Mat, v: Vec)
    requires IsMatrix(A, 3, 3) && |v| == 3
    ensures var w := MatVec(Transpose(A, 3, 3), 3, 3, v);
      && w[0] == A[0][0] * v[0] + A[1][0] * v[1] + A[2][0] * v[2]
      && w[1] == A[0][1] * v[0] + A[1][1] * v[1] + A[2][1] * v[2]
      && w[2] == A[0][2] * v[0] + A[1][2] * v[1] + A[2][2] * v[2]
  {
    MatVec3(Transpose(A, 3, 3), v);
  }

  /** Column k of A P dotted with v equals column k of P dotted with A^T v. */
  lemma ProductColumnDot(A: Mat, P: Mat, v: Vec, k: nat)
    requires IsMatrix(A, 3, 3) && IsMatrix(P, 3, 3) && |v| == 3 && k < 3
    ensures var C, w := MatMul(A, P, 3, 3, 3), MatVec(Transpose(A, 3, 3), 3, 3, v);
      C[0][k] * v[0] + C[1][k] * v[1] + C[2][k] * v[2] == P[0][k] * w[0] + P[1][k] * w[1] + P[2][k] * w[2]
  {
    var C, w := MatMul(A, P, 3, 3, 3), MatVec(Transpose(A, 3, 3), 3, 3, v);
    MatMulColumn3(A, P, k);
    TransposeApplied3(A, v);
    ColumnIdentity(P[0][k], P[1][k], P[2][k], v[0], v[1], v[2],
      A[0][0], A[0][1], A[0][2], A[1][0], A[1][1], A[1][2], A[2][0], A[2][1], A[2][2],
      C[0][k], C[1][k], C[2][k], w[0], w[1], w[2]);
  }

  /** The scalar identity behind `ProductColumnDot`: (A p) . v == p . (A^T v). */
  lemma ColumnIdentity(p0: real, p1: real, p2: real, v0: real, v1: real, v2: real,
                       a00: real, a01: real, a02: real, a10: real, a11: real, a12: real,
                       a20: real, a21: real, a22: real,
                       c0: real, c1: real, c2: real, w0: real, w1: real, w2: real)
    requires c0 == a00 * p0 + a01 * p1 + a02 * p2
    requires c1 == a10 * p0 + a11 * p1 + a12 * p2
    requires c2 == a20 * p0 + a21 * p1 + a22 * p2
    requires w0 == a00 * v0 + a10 * v1 + a20 * v2
    requires w1 == a01 * v0 + a11 * v1 + a21 * v2
    requires w2 == a02 * v0 + a12 * v1 + a22 * v2
    ensures c0 * v0 + c1 * v1 + c2 * v2 == p0 * w0 + p1 * w1 + p2 * w2
  {
    calc {
      c0 * v0 + c1 * v1 + c2 * v2;
      (a00 * p0 + a01 * p1 + a02 * p2) * v0 + (a10 * p0 + a11 * p1 + a12 * p2) * v1
        + (a20 * p0 + a21 * p1 + a22 * p2) * v2;
      p0 * (a00 * v0 + a10 * v1 + a20 * v2) + p1 * (a01 * v0 + a11 * v1 + a21 * v2)
        + p2 * (a02 * v0 + a12 * v1 + a22 * v2);
      p0 * w0 + p1 * w1 + p2 * w2;
    }
  }

  /** `create_cross_product_matrix` of (a, b, c): [[0, -c, b], [c, 0, -a], [-b, a, 0]]. */
  function CrossProductMatrix(v: Vec): (X: Mat)
    requires |v| == 3
    ensures IsMatrix(X, 3, 3)
  {
    [[0.0, -v[2], v[1]], [v[2], 0.0, -v[0]], [-v[1], v[0], 0.0]]
  }

  /** The cross product of two 3-vectors. */
  function Cross(u: Vec, v: Vec): (w: Vec)
    requires |u| == |v| == 3
    ensures |w| == 3
  {
    [u[1] * v[2] - u[2] * v[1], u[2] * v[0] - u[0] * v[2], u[0] * v[1] - u[1] * v[0]]
  }

  /** The cross-product matrix of `u` applied to `v` is `u x v`. */
  lemma CrossProductMatrixApplies(u: Vec, v: Vec)
    requires |u| == |v| == 3
    ensures MatVec(CrossProductMatrix(u), 3, 3, v) == Cross(u, v)
  {
    var X := CrossProductMatrix(u);
    Dot3(X[0], v);
    Dot3(X[1], v);
    Dot3(X[2], v);
    var w := MatVec(X, 3, 3, v);
    assert w[0] == Cross(u, v)[0] && w[1] == Cross(u, v)[1] && w[2] == Cross(u, v)[2];
  }

  /** Column k of the cross-product matrix of `x`, dotted with `u`, is minus component k of x cross u. */
  lemma CrossProductMatrixColumn(x: Vec, u: Vec, k: nat)
    requires |x| == |u| == 3 && k < 3
    ensures var X := CrossProductMatrix(x);
      -(X[0][k] * u[0] + X[1][k] * u[1] + X[2][k] * u[2]) == Cross(x, u)[k]
  {
    if k == 0 {
    } else if k == 1 {
    } else {
    }
  }

  /** The cross-product matrix of c v is c times that of v. */
  lemma CrossProductMatrixScaled(v: Vec, w: Vec, c: real)
    requires |v| == |w| == 3
    requires w[0] == c * v[0] && w[1] == c * v[1] && w[2] == c * v[2]
    ensures forall i, j :: 0 <= i < 3 && 0 <= j < 3 ==>
      CrossProductMatrix(w)[i][j] == c * CrossProductMatrix(v)[i][j]
  {
  }

  /** Row `i` of X~ U~ == u x^T - (x . u) I, for the cross-product matrices of x and u. */
  lemma CrossProductMatrixProduct(x: Vec, u: Vec, i: nat)
    requires |x| == |u| == 3 && i < 3
    ensures var P := MatMul(CrossProductMatrix(x), CrossProductMatrix(u), 3, 3, 3);
      && P[i][0] == u[i] * x[0] - (if i == 0 then x[0] * u[0] + x[1] * u[1] + x[2] * u[2] else 0.0)
      && P[i][1] == u[i] * x[1] - (if i == 1 then x[0] * u[0] + x[1] * u[1] + x[2] * u[2] else 0.0)
      && P[i][2] == u[i] * x[2] - (if i == 2 then x[0] * u[0] + x[1] * u[1] + x[2] * u[2] else 0.0)
  {
    var X, U := CrossProductMatrix(x), CrossProductMatrix(u);
    MatMulRow3(X, U, i);
    assert U[0] == [0.0, -u[2], u[1]] && U[1] == [u[2], 0.0, -u[0]] && U[2] == [-u[1], u[0], 0.0];
    if i == 0 {
      assert X[0] == [0.0, -x[2], x[1]];
    } else if i == 1 {
      assert X[1] == [x[2], 0.0, -x[0]];
    } else {
      assert X[2] == [-x[1], x[0], 0.0];
    }
  }

  /** Cross-product matrices are skew-symmetric. */
  lemma CrossProductMatrixSkew(u: Vec)
    requires |u| == 3
    ensures forall i, j :: 0 <= i < 3 && 0 <= j < 3 ==>
      CrossProductMatrix(u)[i][j] == -CrossProductMatrix(u)[j][i]
  {
  }
}

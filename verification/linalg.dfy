/**
 Dense real linear algebra over nested sequences: the matrix products,
 transposes and sums that the cMPO/cMPS algebra is built from.

 A matrix is a sequence of rows. Its shape is carried by `IsMatrix`; where a
 column count cannot be read off the value (a matrix with no rows) it is passed
 explicitly, as the tensor library carries it in the tensor's shape.
 */
module Linalg {

  type Vector = seq<real>
  type Matrix = seq<seq<real>>
  /** A 3-leg tensor `d x rows x cols`: one matrix per physical index. */
  type Tensor3 = seq<Matrix>
  /** A 4-leg tensor `d1 x d2 x rows x cols`. */
  type Tensor4 = seq<seq<Matrix>>

  predicate IsMatrix(A: Matrix, rows: nat, cols: nat) {
    |A| == rows && forall i :: 0 <= i < rows ==> |A[i]| == cols
  }

  predicate IsSquare(A: Matrix) {
    IsMatrix(A, |A|, |A|)
  }

  predicate IsTensor3(T: Tensor3, d: nat, rows: nat, cols: nat) {
    |T| == d && forall m :: 0 <= m < d ==> IsMatrix(T[m], rows, cols)
  }

  predicate IsTensor4(T: Tensor4, d1: nat, d2: nat, rows: nat, cols: nat) {
    |T| == d1 && forall m :: 0 <= m < d1 ==> IsTensor3(T[m], d2, rows, cols)
  }

  /** Kronecker delta, the entries of the identity matrix. */
  function Delta(i: int, j: int): real {
    if i == j then 1.0 else 0.0
  }

  function Sum(s: Vector): real
    decreases |s|
  {
    if |s| == 0 then 0.0 else Sum(s[..|s| - 1]) + s[|s| - 1]
  }

  /** Inner product; a contraction over one shared index. */
  function Dot(u: Vector, v: Vector): real
    requires |u| == |v|
  {
    Sum(seq(|u|, k requires 0 <= k < |u| => u[k] * v[k]))
  }

  /** Column `j` of a matrix with at least `j + 1` columns. */
  function Col(B: Matrix, j: nat): (c: Vector)
    requires forall k :: 0 <= k < |B| ==> j < |B[k]|
    ensures |c| == |B|
  {
    seq(|B|, k requires 0 <= k < |B| => B[k][j])
  }

  /** The vector `T[.][a][b]` along the first (physical) leg of a 3-leg tensor. */
  function Fiber(T: Tensor3, a: nat, b: nat): (f: Vector)
    requires forall m :: 0 <= m < |T| ==> a < |T[m]| && b < |T[m][a]|
    ensures |f| == |T|
  {
    seq(|T|, m requires 0 <= m < |T| => T[m][a][b])
  }

  function Eye(n: nat): (I: Matrix)
    ensures IsMatrix(I, n, n)
  {
    seq(n, i => seq(n, j => Delta(i, j)))
  }

  function Transpose(A: Matrix, cols: nat): (At: Matrix)
    requires IsMatrix(A, |A|, cols)
    ensures IsMatrix(At, cols, |A|)
  {
    seq(cols, j requires 0 <= j < cols => Col(A, j))
  }

  /** `A @ B` for `A` of shape `|A| x |B|` and `B` of shape `|B| x cols`. */
  function MatMul(A: Matrix, B: Matrix, cols: nat): (C: Matrix)
    requires IsMatrix(A, |A|, |B|) && IsMatrix(B, |B|, cols)
    ensures IsMatrix(C, |A|, cols)
  {
    seq(|A|, i requires 0 <= i < |A| =>
      seq(cols, j requires 0 <= j < cols => Dot(A[i], Col(B, j))))
  }

  function MatAdd(A: Matrix, B: Matrix): (C: Matrix)
    requires |A| == |B| && forall i :: 0 <= i < |A| ==> |A[i]| == |B[i]|
    ensures |C| == |A| && forall i :: 0 <= i < |A| ==> |C[i]| == |A[i]|
    ensures forall i, j :: 0 <= i < |A| && 0 <= j < |A[i]| ==> C[i][j] == A[i][j] + B[i][j]
  {
    seq(|A|, i requires 0 <= i < |A| =>
      seq(|A[i]|, j requires 0 <= j < |A[i]| => A[i][j] + B[i][j]))
  }

  /** The congruence `U^T X U`: a change of bond basis by the columns of `U`. */
  function Congruence(U: Matrix, X: Matrix, cols: nat): (Y: Matrix)
    requires IsSquare(X) && IsMatrix(U, |X|, cols)
    ensures IsMatrix(Y, cols, cols)
  {
    MatMul(MatMul(Transpose(U, cols), X, |X|), U, cols)
  }

  // ---------------------------------------------------------------------------
  // Sums

  lemma {:induction false} SumZero(s: Vector)
    requires forall i :: 0 <= i < |s| ==> s[i] == 0.0
    ensures Sum(s) == 0.0
    decreases |s|
  {
    if |s| > 0 {
      SumZero(s[..|s| - 1]);
    }
  }

  /** A sum with one non-zero term is that term. */
  lemma {:induction false} SumSingle(s: Vector, k: nat)
    requires k < |s|
    requires forall i :: 0 <= i < |s| && i != k ==> s[i] == 0.0
    ensures Sum(s) == s[k]
    decreases |s|
  {
    if k == |s| - 1 {
      SumZero(s[..|s| - 1]);
    } else {
      SumSingle(s[..|s| - 1], k);
    }
  }

  lemma DotPointwise(u: Vector, v: Vector, s: Vector)
    requires |u| == |v| == |s|
    requires forall k :: 0 <= k < |s| ==> s[k] == u[k] * v[k]
    ensures Dot(u, v) == Sum(s)
  {
    var t := seq(|u|, k requires 0 <= k < |u| => u[k] * v[k]);
    assert forall k :: 0 <= k < |s| ==> t[k] == s[k];
    assert t == s;
  }

  lemma DotPrefix(u: Vector, v: Vector)
    requires |u| == |v| > 0
    ensures Dot(u, v) == Dot(u[..|u| - 1], v[..|v| - 1]) + u[|u| - 1] * v[|v| - 1]
  {
    var n := |u| - 1;
    var s := seq(|u|, k requires 0 <= k < |u| => u[k] * v[k]);
    DotPointwise(u, v, s);
    DotPointwise(u[..n], v[..n], s[..n]);
  }

  lemma DotComm(u: Vector, v: Vector)
    requires |u| == |v|
    ensures Dot(u, v) == Dot(v, u)
  {
    var s := seq(|u|, k requires 0 <= k < |u| => u[k] * v[k]);
    DotPointwise(u, v, s);
    DotPointwise(v, u, s);
  }

  lemma DotZeroLeft(z: Vector, v: Vector)
    requires |z| == |v|
    requires forall k :: 0 <= k < |z| ==> z[k] == 0.0
    ensures Dot(z, v) == 0.0
  {
    var s := seq(|v|, k requires 0 <= k < |v| => z[k] * v[k]);
    DotPointwise(z, v, s);
    SumZero(s);
  }

  /** Contracting against a row of the identity picks one entry. */
  lemma DotUnitLeft(e: Vector, v: Vector, i: nat)
    requires |e| == |v| && i < |v|
    requires forall k :: 0 <= k < |e| ==> e[k] == Delta(i, k)
    ensures Dot(e, v) == v[i]
  {
    var s := seq(|v|, k requires 0 <= k < |v| => e[k] * v[k]);
    DotPointwise(e, v, s);
    SumSingle(s, i);
  }

  lemma DotUnitRight(v: Vector, e: Vector, j: nat)
    requires |e| == |v| && j < |v|
    requires forall k :: 0 <= k < |e| ==> e[k] == Delta(k, j)
    ensures Dot(v, e) == v[j]
  {
    var s := seq(|v|, k requires 0 <= k < |v| => v[k] * e[k]);
    DotPointwise(v, e, s);
    SumSingle(s, j);
  }

  // ---------------------------------------------------------------------------
  // Products

  function MatVec(M: Matrix, v: Vector): (w: Vector)
    requires IsMatrix(M, |M|, |v|)
    ensures |w| == |M|
  {
    seq(|M|, k requires 0 <= k < |M| => Dot(M[k], v))
  }

  function VecMat(a: Vector, M: Matrix, cols: nat): (w: Vector)
    requires IsMatrix(M, |a|, cols)
    ensures |w| == cols
  {
    seq(cols, j requires 0 <= j < cols => Dot(a, Col(M, j)))
  }

  /** Linearity of `Dot` in its first argument. */
  lemma {:induction false} DotLinear(p: Vector, q: Vector, x: real, w: Vector, v: Vector)
    requires |p| == |q| == |w| == |v|
    requires forall j :: 0 <= j < |p| ==> p[j] == q[j] + x * w[j]
    ensures Dot(p, v) == Dot(q, v) + x * Dot(w, v)
    decreases |v|
  {
    var n := |v|;
    if n == 0 {
      assert Dot(p, v) == 0.0 && Dot(q, v) == 0.0 && Dot(w, v) == 0.0;
    } else {
      DotLinear(p[..n - 1], q[..n - 1], x, w[..n - 1], v[..n - 1]);
      DotPrefix(p, v);
      DotPrefix(q, v);
      DotPrefix(w, v);
      Distribute(q[n - 1], x, w[n - 1], v[n - 1]);
      assert x * Dot(w, v) == x * Dot(w[..n - 1], v[..n - 1]) + x * (w[n - 1] * v[n - 1]);
    }
  }

  lemma Distribute(q: real, x: real, w: real, v: real)
    ensures (q + x * w) * v == q * v + x * (w * v)
  {
  }

  lemma VecMatPrefix(a: Vector, M: Matrix, cols: nat)
    requires IsMatrix(M, |a|, cols) && |a| > 0
    ensures forall j :: 0 <= j < cols ==>
      VecMat(a, M, cols)[j] == VecMat(a[..|a| - 1], M[..|a| - 1], cols)[j] + a[|a| - 1] * M[|a| - 1][j]
  {
    var n := |a|;
    forall j | 0 <= j < cols
      ensures VecMat(a, M, cols)[j] == VecMat(a[..n - 1], M[..n - 1], cols)[j] + a[n - 1] * M[n - 1][j]
    {
      DotPrefix(a, Col(M, j));
      assert Col(M, j)[..n - 1] == Col(M[..n - 1], j);
    }
  }

  /** `a^T (M v) == (a^T M) v`: the two orders of a double contraction agree. */
  lemma {:induction false} BilinearSwap(a: Vector, M: Matrix, v: Vector)
    requires IsMatrix(M, |a|, |v|)
    ensures Dot(a, MatVec(M, v)) == Dot(VecMat(a, M, |v|), v)
    decreases |a|
  {
    var c := |v|;
    var aM := VecMat(a, M, c);
    var n := |a|;
    if n == 0 {
      DotPointwise(a, MatVec(M, v), []);
      var s := seq(c, j requires 0 <= j < c => aM[j] * v[j]);
      forall j | 0 <= j < c ensures s[j] == 0.0 {
        DotPointwise(a, Col(M, j), []);
      }
      DotPointwise(aM, v, s);
      SumZero(s);
    } else {
      var a', M' := a[..n - 1], M[..n - 1];
      BilinearSwap(a', M', v);
      DotPrefix(a, MatVec(M, v));
      assert MatVec(M, v)[..n - 1] == MatVec(M', v);
      VecMatPrefix(a, M, c);
      DotLinear(aM, VecMat(a', M', c), a[n - 1], M[n - 1], v);
    }
  }

  lemma MatMulAssoc(A: Matrix, B: Matrix, C: Matrix, cols: nat)
    requires IsMatrix(A, |A|, |B|) && IsMatrix(B, |B|, |C|) && IsMatrix(C, |C|, cols)
    ensures MatMul(MatMul(A, B, |C|), C, cols) == MatMul(A, MatMul(B, C, cols), cols)
  {
    var AB := MatMul(A, B, |C|);
    var BC := MatMul(B, C, cols);
    var L := MatMul(AB, C, cols);
    var R := MatMul(A, BC, cols);
    forall i, j | 0 <= i < |A| && 0 <= j < cols ensures L[i][j] == R[i][j] {
      assert AB[i] == VecMat(A[i], B, |C|);
      assert Col(BC, j) == MatVec(B, Col(C, j));
      BilinearSwap(A[i], B, Col(C, j));
    }
    assert forall i :: 0 <= i < |A| ==> L[i] == R[i];
  }

  lemma MatMulEyeLeft(A: Matrix, cols: nat)
    requires IsMatrix(A, |A|, cols)
    ensures MatMul(Eye(|A|), A, cols) == A
  {
    var C := MatMul(Eye(|A|), A, cols);
    forall i, j | 0 <= i < |A| && 0 <= j < cols ensures C[i][j] == A[i][j] {
      DotUnitLeft(Eye(|A|)[i], Col(A, j), i);
    }
    assert forall i :: 0 <= i < |A| ==> C[i] == A[i];
  }

  lemma MatMulEyeRight(A: Matrix, cols: nat)
    requires IsMatrix(A, |A|, cols)
    ensures MatMul(A, Eye(cols), cols) == A
  {
    var C := MatMul(A, Eye(cols), cols);
    forall i, j | 0 <= i < |A| && 0 <= j < cols ensures C[i][j] == A[i][j] {
      DotUnitRight(A[i], Col(Eye(cols), j), j);
    }
    assert forall i :: 0 <= i < |A| ==> C[i] == A[i];
  }

  lemma TransposeEye(n: nat)
    ensures Transpose(Eye(n), n) == Eye(n)
  {
    var T := Transpose(Eye(n), n);
    assert forall i :: 0 <= i < n ==> T[i] == Eye(n)[i];
  }

  /** `(A B)^T == B^T A^T`. */
  lemma TransposeMatMul(A: Matrix, B: Matrix, cols: nat)
    requires IsMatrix(A, |A|, |B|) && IsMatrix(B, |B|, cols)
    ensures Transpose(MatMul(A, B, cols), cols) == MatMul(Transpose(B, cols), Transpose(A, |B|), |A|)
  {
    var L := Transpose(MatMul(A, B, cols), cols);
    var R := MatMul(Transpose(B, cols), Transpose(A, |B|), |A|);
    forall j, i | 0 <= j < cols && 0 <= i < |A| ensures L[j][i] == R[j][i] {
      assert Col(Transpose(A, |B|), i) == A[i];
      DotComm(A[i], Col(B, j));
    }
    assert forall j :: 0 <= j < cols ==> L[j] == R[j];
  }

  // ---------------------------------------------------------------------------
  // Congruence laws

  /** The identity change of basis leaves a matrix unchanged. */
  lemma CongruenceEye(X: Matrix)
    requires IsSquare(X)
    ensures Congruence(Eye(|X|), X, |X|) == X
  {
    TransposeEye(|X|);
    MatMulEyeLeft(X, |X|);
    MatMulEyeRight(X, |X|);
  }

  /** Two successive changes of basis are one change by the product: `V^T (U^T X U) V == (U V)^T X (U V)`. */
  lemma CongruenceCompose(U: Matrix, X: Matrix, k: nat, V: Matrix, m: nat)
    requires IsSquare(X) && IsMatrix(U, |X|, k) && IsMatrix(V, k, m)
    ensures Congruence(V, Congruence(U, X, k), m) == Congruence(MatMul(U, V, m), X, m)
  {
    var n := |X|;
    var Ut, Vt := Transpose(U, k), Transpose(V, m);
    var UV := MatMul(U, V, m);
    var UtX := MatMul(Ut, X, n);
    TransposeMatMul(U, V, m);
    assert Transpose(UV, m) == MatMul(Vt, Ut, n);
    MatMulAssoc(Vt, Ut, X, n);
    var W := MatMul(Vt, UtX, n);
    MatMulAssoc(W, U, V, m);
    MatMulAssoc(Vt, UtX, U, k);
  }
}

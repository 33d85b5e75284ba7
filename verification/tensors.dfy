/**
 The two tensor-network objects and the operations that act on one of them:
 the cMPO (operator) and the cMPS (state), their change of bond basis
 (`project`), the cMPO transpose (`t`) and `multiply`.

 `D` is the bond dimension (`dim = Q.shape[0]`) and `d` the physical leg size.
 */
module Tensors {
  import opened Linalg

  /**
   A cMPO with blocks `[[I + dtau Q, sqrt(dtau) R], [sqrt(dtau) L, P]]`:
   `Q` is `D x D`, `L` and `R` are `d x D x D`, `P` is `d x d x D x D`.
   */
  datatype Cmpo = Cmpo(Q: Matrix, L: Tensor3, R: Tensor3, P: Tensor4)

  /** A cMPS with blocks `[I + dtau Q, sqrt(dtau) R]`: `Q` is `D x D`, `R` is `d x D x D`. */
  datatype Cmps = Cmps(Q: Matrix, R: Tensor3)

  predicate ValidCmpo(o: Cmpo) {
    var D, d := |o.Q|, |o.L|;
    && IsMatrix(o.Q, D, D)
    && IsTensor3(o.L, d, D, D)
    && IsTensor3(o.R, d, D, D)
    && IsTensor4(o.P, d, d, D, D)
  }

  predicate ValidCmps(s: Cmps) {
    IsMatrix(s.Q, |s.Q|, |s.Q|) && IsTensor3(s.R, |s.R|, |s.Q|, |s.Q|)
  }

  /** `U.t() @ T @ U` on a stack of matrices: the congruence applied slice by slice. */
  function ProjectSlices(T: Tensor3, U: Matrix, chi: nat): (r: Tensor3)
    requires IsTensor3(T, |T|, |U|, |U|) && IsMatrix(U, |U|, chi)
    ensures IsTensor3(r, |T|, chi, chi)
  {
    seq(|T|, m requires 0 <= m < |T| => Congruence(U, T[m], chi))
  }

  /** `cmpo.project(U)` for `U` of shape `D x chi`. */
  function ProjectCmpo(o: Cmpo, U: Matrix, chi: nat): (r: Cmpo)
    requires ValidCmpo(o) && IsMatrix(U, |o.Q|, chi)
    ensures ValidCmpo(r) && |r.Q| == chi && |r.L| == |o.L|
  {
    var d := |o.L|;
    Cmpo(Congruence(U, o.Q, chi),
         ProjectSlices(o.L, U, chi),
         ProjectSlices(o.R, U, chi),
         seq(d, m requires 0 <= m < d => ProjectSlices(o.P[m], U, chi)))
  }

  /** `cmps.project(U)` for `U` of shape `D x chi`. */
  function ProjectCmps(s: Cmps, U: Matrix, chi: nat): (r: Cmps)
    requires ValidCmps(s) && IsMatrix(U, |s.Q|, chi)
    ensures ValidCmps(r) && |r.Q| == chi && |r.R| == |s.R|
  {
    Cmps(Congruence(U, s.Q, chi), ProjectSlices(s.R, U, chi))
  }

  /** `cmpo.t()`: `Q` kept, `L` and `R` exchanged, the two physical legs of `P` exchanged. */
  function TransposeCmpo(o: Cmpo): (r: Cmpo)
    requires ValidCmpo(o)
    ensures ValidCmpo(r) && |r.Q| == |o.Q| && |r.L| == |o.L|
    ensures r.Q == o.Q && r.L == o.R && r.R == o.L
    ensures forall a, b :: 0 <= a < |o.L| && 0 <= b < |o.L| ==> r.P[a][b] == o.P[b][a]
  {
    var d := |o.L|;
    Cmpo(o.Q, o.R, o.L, seq(d, a requires 0 <= a < d => seq(d, b requires 0 <= b < d => o.P[b][a])))
  }

  /** `multiply(W, mps)`: `R1[m] = sum_n W[m][n] R[n]`; `Q` is not touched. */
  function Multiply(W: Matrix, s: Cmps): (r: Cmps)
    requires ValidCmps(s) && IsMatrix(W, |W|, |s.R|)
    ensures ValidCmps(r) && r.Q == s.Q && |r.R| == |W|
  {
    var D := |s.Q|;
    Cmps(s.Q, seq(|W|, m requires 0 <= m < |W| =>
                 seq(D, a requires 0 <= a < D =>
                   seq(D, b requires 0 <= b < D => Dot(W[m], Fiber(s.R, a, b))))))
  }

  // ---------------------------------------------------------------------------
  // Laws of project

  lemma ProjectSlicesEye(T: Tensor3, n: nat)
    requires IsTensor3(T, |T|, n, n)
    ensures ProjectSlices(T, Eye(n), n) == T
  {
    forall m | 0 <= m < |T| ensures ProjectSlices(T, Eye(n), n)[m] == T[m] {
      CongruenceEye(T[m]);
    }
  }

  lemma ProjectSlicesCompose(T: Tensor3, U: Matrix, k: nat, V: Matrix, chi: nat)
    requires IsTensor3(T, |T|, |U|, |U|) && IsMatrix(U, |U|, k) && IsMatrix(V, k, chi)
    ensures ProjectSlices(ProjectSlices(T, U, k), V, chi) == ProjectSlices(T, MatMul(U, V, chi), chi)
  {
    forall m | 0 <= m < |T|
      ensures ProjectSlices(ProjectSlices(T, U, k), V, chi)[m] == ProjectSlices(T, MatMul(U, V, chi), chi)[m]
    {
      CongruenceCompose(U, T[m], k, V, chi);
    }
  }

  /** Projecting a cMPS with the identity returns it unchanged. */
  lemma ProjectCmpsEye(s: Cmps)
    requires ValidCmps(s)
    ensures ProjectCmps(s, Eye(|s.Q|), |s.Q|) == s
  {
    CongruenceEye(s.Q);
    ProjectSlicesEye(s.R, |s.Q|);
  }

  /** Projecting a cMPO with the identity returns it unchanged. */
  lemma ProjectCmpoEye(o: Cmpo)
    requires ValidCmpo(o)
    ensures ProjectCmpo(o, Eye(|o.Q|), |o.Q|) == o
  {
    var D := |o.Q|;
    CongruenceEye(o.Q);
    ProjectSlicesEye(o.L, D);
    ProjectSlicesEye(o.R, D);
    forall m | 0 <= m < |o.L| ensures ProjectCmpo(o, Eye(D), D).P[m] == o.P[m] {
      ProjectSlicesEye(o.P[m], D);
    }
  }

  /** Two successive projections of a cMPS are one projection by the product `U @ V`. */
  lemma ProjectCmpsCompose(s: Cmps, U: Matrix, k: nat, V: Matrix, chi: nat)
    requires ValidCmps(s) && IsMatrix(U, |s.Q|, k) && IsMatrix(V, k, chi)
    ensures ProjectCmps(ProjectCmps(s, U, k), V, chi) == ProjectCmps(s, MatMul(U, V, chi), chi)
  {
    CongruenceCompose(U, s.Q, k, V, chi);
    ProjectSlicesCompose(s.R, U, k, V, chi);
  }

  /** Two successive projections of a cMPO are one projection by the product `U @ V`. */
  lemma ProjectCmpoCompose(o: Cmpo, U: Matrix, k: nat, V: Matrix, chi: nat)
    requires ValidCmpo(o) && IsMatrix(U, |o.Q|, k) && IsMatrix(V, k, chi)
    ensures ProjectCmpo(ProjectCmpo(o, U, k), V, chi) == ProjectCmpo(o, MatMul(U, V, chi), chi)
  {
    var UV := MatMul(U, V, chi);
    CongruenceCompose(U, o.Q, k, V, chi);
    ProjectSlicesCompose(o.L, U, k, V, chi);
    ProjectSlicesCompose(o.R, U, k, V, chi);
    forall m | 0 <= m < |o.L|
      ensures ProjectCmpo(ProjectCmpo(o, U, k), V, chi).P[m] == ProjectCmpo(o, UV, chi).P[m]
    {
      ProjectSlicesCompose(o.P[m], U, k, V, chi);
    }
  }

  // ---------------------------------------------------------------------------
  // Laws of t

  /** `t` is an involution. */
  lemma TransposeTwice(o: Cmpo)
    requires ValidCmpo(o)
    ensures TransposeCmpo(TransposeCmpo(o)) == o
  {
    var r := TransposeCmpo(TransposeCmpo(o));
    assert forall a :: 0 <= a < |o.L| ==> r.P[a] == o.P[a];
  }

  /** `t` commutes with a change of bond basis. */
  lemma TransposeProject(o: Cmpo, U: Matrix, chi: nat)
    requires ValidCmpo(o) && IsMatrix(U, |o.Q|, chi)
    ensures TransposeCmpo(ProjectCmpo(o, U, chi)) == ProjectCmpo(TransposeCmpo(o), U, chi)
  {
    var l, r := TransposeCmpo(ProjectCmpo(o, U, chi)), ProjectCmpo(TransposeCmpo(o), U, chi);
    assert forall a :: 0 <= a < |o.L| ==> l.P[a] == r.P[a];
  }

  // ---------------------------------------------------------------------------
  // Laws of multiply

  /** Multiplying by the identity leaves the cMPS unchanged. */
  lemma MultiplyEye(s: Cmps)
    requires ValidCmps(s)
    ensures Multiply(Eye(|s.R|), s) == s
  {
    var d, D := |s.R|, |s.Q|;
    var r := Multiply(Eye(d), s);
    forall m, a, b | 0 <= m < d && 0 <= a < D && 0 <= b < D ensures r.R[m][a][b] == s.R[m][a][b] {
      DotUnitLeft(Eye(d)[m], Fiber(s.R, a, b), m);
    }
    forall m | 0 <= m < d ensures r.R[m] == s.R[m] {
      assert forall a :: 0 <= a < D ==> r.R[m][a] == s.R[m][a];
    }
  }

  /** Multiplying by `W1` and then by `W2` is multiplying by `W2 @ W1`. */
  lemma MultiplyCompose(W2: Matrix, W1: Matrix, s: Cmps)
    requires ValidCmps(s) && IsMatrix(W1, |W1|, |s.R|) && IsMatrix(W2, |W2|, |W1|)
    ensures Multiply(W2, Multiply(W1, s)) == Multiply(MatMul(W2, W1, |s.R|), s)
  {
    var D := |s.Q|;
    var W := MatMul(W2, W1, |s.R|);
    var s1 := Multiply(W1, s);
    var l, r := Multiply(W2, s1), Multiply(W, s);
    forall m, a, b | 0 <= m < |W2| && 0 <= a < D && 0 <= b < D ensures l.R[m][a][b] == r.R[m][a][b] {
      assert Fiber(s1.R, a, b) == MatVec(W1, Fiber(s.R, a, b));
      assert W[m] == VecMat(W2[m], W1, |s.R|);
      BilinearSwap(W2[m], W1, Fiber(s.R, a, b));
    }
    forall m | 0 <= m < |W2| ensures l.R[m] == r.R[m] {
      assert forall a :: 0 <= a < D ==> l.R[m][a] == r.R[m][a];
    }
  }
}

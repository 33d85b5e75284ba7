/**
 How a cMPO and a cMPS compose: the right action `act`, the left action
 `Lact`, the overlap generator `density_matrix`, and the fidelity built on it.

 Results live on the Kronecker bond space of dimension `Do * Ds`; the pair of
 bond indices `(a, c)` sits at `Flat(a, c, Do, Ds) == a * Ds + c`.
 */
module Actions {
  import opened Linalg
  import opened Kron
  import opened Tensors

  /** `torch.einsum('ab,cd->acbd', A, B)`. */
  function Outer(A: Matrix, B: Matrix): (T: Tensor4)
    requires IsSquare(A) && IsSquare(B)
    ensures IsTensor4(T, |A|, |B|, |A|, |B|)
  {
    seq(|A|, a requires 0 <= a < |A| =>
      seq(|B|, c requires 0 <= c < |B| =>
        seq(|A|, b requires 0 <= b < |A| =>
          seq(|B|, e requires 0 <= e < |B| => A[a][b] * B[c][e]))))
  }

  /**
   `torch.einsum('mab,mcd->acbd', X, Y)`: Kronecker products of matching
   slices, summed over the shared leading index `m`.
   */
  function Pairing(X: Tensor3, Y: Tensor3, m: nat, n: nat): (T: Tensor4)
    requires |X| == |Y| && IsTensor3(X, |X|, m, m) && IsTensor3(Y, |Y|, n, n)
    ensures IsTensor4(T, m, n, m, n)
  {
    seq(m, a requires 0 <= a < m =>
      seq(n, c requires 0 <= c < n =>
        seq(m, b requires 0 <= b < m =>
          seq(n, e requires 0 <= e < n => Dot(Fiber(X, a, b), Fiber(Y, c, e))))))
  }

  lemma ViewOuterAt(A: Matrix, B: Matrix, a: nat, c: nat, b: nat, e: nat)
    requires IsSquare(A) && IsSquare(B) && a < |A| && c < |B| && b < |A| && e < |B|
    ensures View(Outer(A, B), |A|, |B|)[Flat(a, c, |A|, |B|)][Flat(b, e, |A|, |B|)] == A[a][b] * B[c][e]
  {
  }

  lemma ViewPairingAt(X: Tensor3, Y: Tensor3, m: nat, n: nat, a: nat, c: nat, b: nat, e: nat)
    requires |X| == |Y| && IsTensor3(X, |X|, m, m) && IsTensor3(Y, |Y|, n, n)
    requires a < m && c < n && b < m && e < n
    ensures View(Pairing(X, Y, m, n), m, n)[Flat(a, c, m, n)][Flat(b, e, m, n)] == Dot(Fiber(X, a, b), Fiber(Y, c, e))
  {
  }

  /** `Q (x) I` on the bond space: entry `((a, c), (b, e))` is `Q[a][b] * delta(c, e)`. */
  lemma OuterEyeRightAt(A: Matrix, n: nat, a: nat, c: nat, b: nat, e: nat)
    requires IsSquare(A) && a < |A| && c < n && b < |A| && e < n
    ensures View(Outer(A, Eye(n)), |A|, n)[Flat(a, c, |A|, n)][Flat(b, e, |A|, n)] == A[a][b] * Delta(c, e)
  {
    ViewOuterAt(A, Eye(n), a, c, b, e);
    assert Eye(n)[c][e] == Delta(c, e);
  }

  /** `I (x) Q` on the bond space: entry `((a, c), (b, e))` is `delta(a, b) * Q[c][e]`. */
  lemma OuterEyeLeftAt(m: nat, B: Matrix, a: nat, c: nat, b: nat, e: nat)
    requires IsSquare(B) && a < m && c < |B| && b < m && e < |B|
    ensures View(Outer(Eye(m), B), m, |B|)[Flat(a, c, m, |B|)][Flat(b, e, m, |B|)] == Delta(a, b) * B[c][e]
  {
    ViewOuterAt(Eye(m), B, a, c, b, e);
    assert Eye(m)[a][b] == Delta(a, b);
  }

  /** The operands of a generator: two `(Q, R)` pairs with the same number of `R` slices. */
  predicate GeneratorArgs(Q1: Matrix, R1: Tensor3, Q2: Matrix, R2: Tensor3) {
    && IsSquare(Q1) && IsTensor3(R1, |R1|, |Q1|, |Q1|)
    && IsSquare(Q2) && IsTensor3(R2, |R2|, |Q2|, |Q2|)
    && |R1| == |R2|
  }

  /**
   `Q1 (x) I + I (x) Q2 + sum_m R1[m] (x) R2[m]` on the bond space `D1 * D2`:
   the `Q` part of `act` and the `density_matrix` of two cMPS.
   */
  function Generator(Q1: Matrix, R1: Tensor3, Q2: Matrix, R2: Tensor3): (M: Matrix)
    requires GeneratorArgs(Q1, R1, Q2, R2)
    ensures IsMatrix(M, |Q1| * |Q2|, |Q1| * |Q2|)
  {
    var D1, D2 := |Q1|, |Q2|;
    MatAdd(MatAdd(View(Outer(Q1, Eye(D2)), D1, D2), View(Outer(Eye(D1), Q2), D1, D2)),
           View(Pairing(R1, R2, D1, D2), D1, D2))
  }

  /** Entry `((a, c), (b, e))` of the generator. */
  lemma GeneratorAt(Q1: Matrix, R1: Tensor3, Q2: Matrix, R2: Tensor3, a: nat, c: nat, b: nat, e: nat)
    requires GeneratorArgs(Q1, R1, Q2, R2)
    requires a < |Q1| && c < |Q2| && b < |Q1| && e < |Q2|
    ensures Generator(Q1, R1, Q2, R2)[Flat(a, c, |Q1|, |Q2|)][Flat(b, e, |Q1|, |Q2|)]
      == Q1[a][b] * Delta(c, e) + Delta(a, b) * Q2[c][e] + Dot(Fiber(R1, a, b), Fiber(R2, c, e))
  {
    var D1, D2 := |Q1|, |Q2|;
    var i, j := Flat(a, c, D1, D2), Flat(b, e, D1, D2);
    var V1 := View(Outer(Q1, Eye(D2)), D1, D2);
    var V2 := View(Outer(Eye(D1), Q2), D1, D2);
    var V3 := View(Pairing(R1, R2, D1, D2), D1, D2);
    assert Generator(Q1, R1, Q2, R2)[i][j] == MatAdd(V1, V2)[i][j] + V3[i][j];
    assert MatAdd(V1, V2)[i][j] == V1[i][j] + V2[i][j];
    OuterEyeRightAt(Q1, D2, a, c, b, e);
    OuterEyeLeftAt(D1, Q2, a, c, b, e);
    ViewPairingAt(R1, R2, D1, D2, a, c, b, e);
  }

  /** `act` and `Lact` contract the operator's physical output leg against the state's. */
  predicate Compatible(mpo: Cmpo, mps: Cmps) {
    ValidCmpo(mpo) && ValidCmps(mps) && |mpo.L| == |mps.R|
  }

  /** Slice `m` of `R_rslt` of `act`. */
  function ActRSlice(mpo: Cmpo, mps: Cmps, m: nat): (M: Matrix)
    requires Compatible(mpo, mps) && m < |mps.R|
    ensures IsMatrix(M, |mpo.Q| * |mps.Q|, |mpo.Q| * |mps.Q|)
  {
    var Do, Ds := |mpo.Q|, |mps.Q|;
    MatAdd(View(Outer(mpo.L[m], Eye(Ds)), Do, Ds),
           View(Pairing(mpo.P[m], mps.R, Do, Ds), Do, Ds))
  }

  /**
   `act(mpo, mps)`, the cMPS on the bond space `Do * Ds`; its entries are
   given by `ActQAt` and `ActRAt`.
   */
  function Act(mpo: Cmpo, mps: Cmps): (r: Cmps)
    requires Compatible(mpo, mps)
    ensures ValidCmps(r)
    ensures |r.Q| == |mpo.Q| * |mps.Q| && |r.R| == |mps.R|
  {
    var d := |mps.R|;
    Cmps(Generator(mpo.Q, mpo.R, mps.Q, mps.R), seq(d, m requires 0 <= m < d => ActRSlice(mpo, mps, m)))
  }

  /** `Q` of `act`: `mpo.Q (x) I + I (x) mps.Q + sum_m mpo.R[m] (x) mps.R[m]`. */
  lemma ActQAt(mpo: Cmpo, mps: Cmps, a: nat, c: nat, b: nat, e: nat)
    requires Compatible(mpo, mps)
    requires a < |mpo.Q| && c < |mps.Q| && b < |mpo.Q| && e < |mps.Q|
    ensures Act(mpo, mps).Q[Flat(a, c, |mpo.Q|, |mps.Q|)][Flat(b, e, |mpo.Q|, |mps.Q|)]
      == mpo.Q[a][b] * Delta(c, e) + Delta(a, b) * mps.Q[c][e] + Dot(Fiber(mpo.R, a, b), Fiber(mps.R, c, e))
  {
    GeneratorAt(mpo.Q, mpo.R, mps.Q, mps.R, a, c, b, e);
  }

  /** Slice `m` of `R` of `act`: `mpo.L[m] (x) I + sum_n mpo.P[m][n] (x) mps.R[n]`. */
  lemma ActRAt(mpo: Cmpo, mps: Cmps, m: nat, a: nat, c: nat, b: nat, e: nat)
    requires Compatible(mpo, mps) && m < |mps.R|
    requires a < |mpo.Q| && c < |mps.Q| && b < |mpo.Q| && e < |mps.Q|
    ensures Act(mpo, mps).R[m][Flat(a, c, |mpo.Q|, |mps.Q|)][Flat(b, e, |mpo.Q|, |mps.Q|)]
      == mpo.L[m][a][b] * Delta(c, e) + Dot(Fiber(mpo.P[m], a, b), Fiber(mps.R, c, e))
  {
    ActRSliceAt(mpo, mps, m, a, c, b, e);
  }

  /** Every entry of `Q` of `act(mpo, mps)`. */
  lemma ActQEntries(mpo: Cmpo, mps: Cmps)
    requires Compatible(mpo, mps)
    ensures forall a: nat, c: nat, b: nat, e: nat
      | a < |mpo.Q| && c < |mps.Q| && b < |mpo.Q| && e < |mps.Q| ::
      Act(mpo, mps).Q[Flat(a, c, |mpo.Q|, |mps.Q|)][Flat(b, e, |mpo.Q|, |mps.Q|)]
        == mpo.Q[a][b] * Delta(c, e) + Delta(a, b) * mps.Q[c][e] + Dot(Fiber(mpo.R, a, b), Fiber(mps.R, c, e))
  {
    forall a: nat, c: nat, b: nat, e: nat | a < |mpo.Q| && c < |mps.Q| && b < |mpo.Q| && e < |mps.Q| {
      ActQAt(mpo, mps, a, c, b, e);
    }
  }

  /** Every entry of every slice of `R` of `act(mpo, mps)`. */
  lemma ActREntries(mpo: Cmpo, mps: Cmps)
    requires Compatible(mpo, mps)
    ensures forall m: nat, a: nat, c: nat, b: nat, e: nat
      | m < |mps.R| && a < |mpo.Q| && c < |mps.Q| && b < |mpo.Q| && e < |mps.Q| ::
      Act(mpo, mps).R[m][Flat(a, c, |mpo.Q|, |mps.Q|)][Flat(b, e, |mpo.Q|, |mps.Q|)]
        == mpo.L[m][a][b] * Delta(c, e) + Dot(Fiber(mpo.P[m], a, b), Fiber(mps.R, c, e))
  {
    forall m: nat, a: nat, c: nat, b: nat, e: nat
      | m < |mps.R| && a < |mpo.Q| && c < |mps.Q| && b < |mpo.Q| && e < |mps.Q|
    {
      ActRAt(mpo, mps, m, a, c, b, e);
    }
  }

  lemma ActRSliceAt(mpo: Cmpo, mps: Cmps, m: nat, a: nat, c: nat, b: nat, e: nat)
    requires Compatible(mpo, mps) && m < |mps.R|
    requires a < |mpo.Q| && c < |mps.Q| && b < |mpo.Q| && e < |mps.Q|
    ensures ActRSlice(mpo, mps, m)[Flat(a, c, |mpo.Q|, |mps.Q|)][Flat(b, e, |mpo.Q|, |mps.Q|)]
      == mpo.L[m][a][b] * Delta(c, e) + Dot(Fiber(mpo.P[m], a, b), Fiber(mps.R, c, e))
  {
    var Do, Ds := |mpo.Q|, |mps.Q|;
    var i, j := Flat(a, c, Do, Ds), Flat(b, e, Do, Ds);
    assert IsSquare(mpo.L[m]) && IsTensor3(mpo.P[m], |mps.R|, Do, Do);
    var V1 := View(Outer(mpo.L[m], Eye(Ds)), Do, Ds);
    var V2 := View(Pairing(mpo.P[m], mps.R, Do, Ds), Do, Ds);
    assert ActRSlice(mpo, mps, m)[i][j] == V1[i][j] + V2[i][j];
    OuterEyeRightAt(mpo.L[m], Ds, a, c, b, e);
    ViewPairingAt(mpo.P[m], mps.R, Do, Ds, a, c, b, e);
  }

  /**
   `Lact(mps, mpo)`: `act` with the transposed cMPO, then the two Kronecker
   factors exchanged (`'abcd->badc'` on `Q` and on every slice of `R`), so that
   the state's bond index is the leading one.
   */
  function Lact(mps: Cmps, mpo: Cmpo): (r: Cmps)
    requires Compatible(mpo, mps)
    ensures ValidCmps(r)
    ensures |r.Q| == |mps.Q| * |mpo.Q| && |r.R| == |mps.R|
  {
    var Do, Ds, d := |mpo.Q|, |mps.Q|, |mps.R|;
    var T := Act(TransposeCmpo(mpo), mps);
    Cmps(CommuteFactors(T.Q, Do, Ds), seq(d, m requires 0 <= m < d => CommuteFactors(T.R[m], Do, Ds)))
  }

  /** `density_matrix(mps1, mps2)`: the generator `K` of `<mps1|mps2>` on the bond space `D1 * D2`. */
  function DensityMatrix(s1: Cmps, s2: Cmps): (M: Matrix)
    requires ValidCmps(s1) && ValidCmps(s2) && |s1.R| == |s2.R|
    ensures IsMatrix(M, |s1.Q| * |s2.Q|, |s1.Q| * |s2.Q|)
  {
    Generator(s1.Q, s1.R, s2.Q, s2.R)
  }

  /** `K = Q1 (x) I + I (x) Q2 + sum_m R1[m] (x) R2[m]`, entry by entry. */
  lemma DensityMatrixAt(s1: Cmps, s2: Cmps, a: nat, c: nat, b: nat, e: nat)
    requires ValidCmps(s1) && ValidCmps(s2) && |s1.R| == |s2.R|
    requires a < |s1.Q| && c < |s2.Q| && b < |s1.Q| && e < |s2.Q|
    ensures DensityMatrix(s1, s2)[Flat(a, c, |s1.Q|, |s2.Q|)][Flat(b, e, |s1.Q|, |s2.Q|)]
      == s1.Q[a][b] * Delta(c, e) + Delta(a, b) * s2.Q[c][e] + Dot(Fiber(s1.R, a, b), Fiber(s2.R, c, e))
  {
    GeneratorAt(s1.Q, s1.R, s2.Q, s2.R, a, c, b, e);
  }

  /** `density_matrix(s1, s2)` is the `Q` part of `act` for any cMPO whose `Q` and `R` are those of `s1`. */
  lemma DensityMatrixIsActQ(s1: Cmps, s2: Cmps, L: Tensor3, P: Tensor4)
    requires ValidCmps(s1) && ValidCmps(s2) && |s1.R| == |s2.R|
    requires ValidCmpo(Cmpo(s1.Q, L, s1.R, P)) && |L| == |s1.R|
    ensures DensityMatrix(s1, s2) == Act(Cmpo(s1.Q, L, s1.R, P), s2).Q
  {
  }

  /** `ln_ovlp`: `LogTrExpm(beta, density_matrix(mps1, mps2))`, with the log-trace-exp as a parameter. */
  function LnOvlp(logTrExpm: (real, Matrix) -> real, s1: Cmps, s2: Cmps, beta: real): real
    requires ValidCmps(s1) && ValidCmps(s2) && |s1.R| == |s2.R|
  {
    logTrExpm(beta, DensityMatrix(s1, s2))
  }

  /** `Fidelity(psi, mps, beta) = ln<psi|mps> - ln<psi|psi> / 2`. */
  function Fidelity(logTrExpm: (real, Matrix) -> real, psi: Cmps, mps: Cmps, beta: real): real
    requires ValidCmps(psi) && ValidCmps(mps) && |psi.R| == |mps.R|
  {
    LnOvlp(logTrExpm, psi, mps, beta) - 0.5 * LnOvlp(logTrExpm, psi, psi, beta)
  }

  // ---------------------------------------------------------------------------
  // Relations between act, Lact and density_matrix

  /** Exchanging the two states of an overlap commutes the Kronecker factors of its generator. */
  lemma DensityMatrixSwap(s1: Cmps, s2: Cmps)
    requires ValidCmps(s1) && ValidCmps(s2) && |s1.R| == |s2.R|
    ensures DensityMatrix(s2, s1) == CommuteFactors(DensityMatrix(s1, s2), |s1.Q|, |s2.Q|)
  {
    var D1, D2 := |s1.Q|, |s2.Q|;
    var A, B := DensityMatrix(s2, s1), CommuteFactors(DensityMatrix(s1, s2), D1, D2);
    forall c: nat, a: nat, e: nat, b: nat | c < D2 && a < D1 && e < D2 && b < D1
      ensures A[Flat(c, a, D2, D1)][Flat(e, b, D2, D1)] == B[Flat(c, a, D2, D1)][Flat(e, b, D2, D1)]
    {
      DensityMatrixSwapAt(s1, s2, a, c, b, e);
    }
    FlatExt(A, B, D2, D1);
  }

  lemma DensityMatrixSwapAt(s1: Cmps, s2: Cmps, a: nat, c: nat, b: nat, e: nat)
    requires ValidCmps(s1) && ValidCmps(s2) && |s1.R| == |s2.R|
    requires a < |s1.Q| && c < |s2.Q| && b < |s1.Q| && e < |s2.Q|
    ensures var D1, D2 := |s1.Q|, |s2.Q|;
      DensityMatrix(s2, s1)[Flat(c, a, D2, D1)][Flat(e, b, D2, D1)]
        == CommuteFactors(DensityMatrix(s1, s2), D1, D2)[Flat(c, a, D2, D1)][Flat(e, b, D2, D1)]
  {
    var D1, D2 := |s1.Q|, |s2.Q|;
    DotComm(Fiber(s1.R, a, b), Fiber(s2.R, c, e));
    DensityMatrixAt(s2, s1, c, a, e, b);
    DensityMatrixAt(s1, s2, a, c, b, e);
    assert CommuteFactors(DensityMatrix(s1, s2), D1, D2)[Flat(c, a, D2, D1)][Flat(e, b, D2, D1)]
      == DensityMatrix(s1, s2)[Flat(a, c, D1, D2)][Flat(b, e, D1, D2)];
  }

  lemma LactQViaAct(mps: Cmps, mpo: Cmpo, s: nat, o: nat, s': nat, o': nat)
    requires Compatible(mpo, mps)
    requires s < |mps.Q| && o < |mpo.Q| && s' < |mps.Q| && o' < |mpo.Q|
    ensures Lact(mps, mpo).Q[Flat(s, o, |mps.Q|, |mpo.Q|)][Flat(s', o', |mps.Q|, |mpo.Q|)]
      == Act(TransposeCmpo(mpo), mps).Q[Flat(o, s, |mpo.Q|, |mps.Q|)][Flat(o', s', |mpo.Q|, |mps.Q|)]
  {
    var Do, Ds := |mpo.Q|, |mps.Q|;
    var T := Act(TransposeCmpo(mpo), mps);
    assert Lact(mps, mpo).Q == CommuteFactors(T.Q, Do, Ds);
  }

  lemma LactQAt(mps: Cmps, mpo: Cmpo, s: nat, o: nat, s': nat, o': nat)
    requires Compatible(mpo, mps)
    requires s < |mps.Q| && o < |mpo.Q| && s' < |mps.Q| && o' < |mpo.Q|
    ensures Lact(mps, mpo).Q[Flat(s, o, |mps.Q|, |mpo.Q|)][Flat(s', o', |mps.Q|, |mpo.Q|)]
      == mps.Q[s][s'] * Delta(o, o') + Delta(s, s') * mpo.Q[o][o'] + Dot(Fiber(mps.R, s, s'), Fiber(mpo.L, o, o'))
  {
    LactQViaAct(mps, mpo, s, o, s', o');
    ActTransposedQAt(mps, mpo, s, o, s', o');
    DotComm(Fiber(mpo.L, o, o'), Fiber(mps.R, s, s'));
  }

  lemma ActTransposedQAt(mps: Cmps, mpo: Cmpo, s: nat, o: nat, s': nat, o': nat)
    requires Compatible(mpo, mps)
    requires s < |mps.Q| && o < |mpo.Q| && s' < |mps.Q| && o' < |mpo.Q|
    ensures Act(TransposeCmpo(mpo), mps).Q[Flat(o, s, |mpo.Q|, |mps.Q|)][Flat(o', s', |mpo.Q|, |mps.Q|)]
      == mpo.Q[o][o'] * Delta(s, s') + Delta(o, o') * mps.Q[s][s'] + Dot(Fiber(mpo.L, o, o'), Fiber(mps.R, s, s'))
  {
    var T := TransposeCmpo(mpo);
    ActQAt(T, mps, o, s, o', s');
    assert T.Q == mpo.Q && T.R == mpo.L;
  }

  /**
   The generator of `Lact(mps, mpo)` is the overlap generator with the state
   on the left and the cMPO's `(Q, L)` on the right.
   */
  lemma LactQIsDensityMatrix(mps: Cmps, mpo: Cmpo)
    requires Compatible(mpo, mps)
    ensures ValidCmps(Cmps(mpo.Q, mpo.L))
    ensures Lact(mps, mpo).Q == DensityMatrix(mps, Cmps(mpo.Q, mpo.L))
  {
    var Do, Ds := |mpo.Q|, |mps.Q|;
    var A, B := Lact(mps, mpo).Q, DensityMatrix(mps, Cmps(mpo.Q, mpo.L));
    forall s: nat, o: nat, s': nat, o': nat | s < Ds && o < Do && s' < Ds && o' < Do
      ensures A[Flat(s, o, Ds, Do)][Flat(s', o', Ds, Do)] == B[Flat(s, o, Ds, Do)][Flat(s', o', Ds, Do)]
    {
      LactQDensityAt(mps, mpo, s, o, s', o');
    }
    FlatExt(A, B, Ds, Do);
  }

  lemma LactQDensityAt(mps: Cmps, mpo: Cmpo, s: nat, o: nat, s': nat, o': nat)
    requires Compatible(mpo, mps)
    requires s < |mps.Q| && o < |mpo.Q| && s' < |mps.Q| && o' < |mpo.Q|
    ensures ValidCmps(Cmps(mpo.Q, mpo.L))
    ensures Lact(mps, mpo).Q[Flat(s, o, |mps.Q|, |mpo.Q|)][Flat(s', o', |mps.Q|, |mpo.Q|)]
      == DensityMatrix(mps, Cmps(mpo.Q, mpo.L))[Flat(s, o, |mps.Q|, |mpo.Q|)][Flat(s', o', |mps.Q|, |mpo.Q|)]
  {
    LactQAt(mps, mpo, s, o, s', o');
    DensityMatrixAt(mps, Cmps(mpo.Q, mpo.L), s, o, s', o');
  }

  /** `sum_n P[n][m][a][b]`-style fiber: the physical input leg of `P` runs, the output leg is `m`. */
  function InFiber(P: Tensor4, m: nat, a: nat, b: nat): (f: Vector)
    requires forall n :: 0 <= n < |P| ==> m < |P[n]| && a < |P[n][m]| && b < |P[n][m][a]|
    ensures |f| == |P|
  {
    seq(|P|, n requires 0 <= n < |P| => P[n][m][a][b])
  }

  lemma LactRAt(mps: Cmps, mpo: Cmpo, m: nat, s: nat, o: nat, s': nat, o': nat)
    requires Compatible(mpo, mps) && m < |mps.R|
    requires s < |mps.Q| && o < |mpo.Q| && s' < |mps.Q| && o' < |mpo.Q|
    ensures Lact(mps, mpo).R[m][Flat(s, o, |mps.Q|, |mpo.Q|)][Flat(s', o', |mps.Q|, |mpo.Q|)]
      == Delta(s, s') * mpo.R[m][o][o'] + Dot(Fiber(mps.R, s, s'), InFiber(mpo.P, m, o, o'))
  {
    TransposedFiber(mpo, m, o, o');
    DotComm(Fiber(mps.R, s, s'), InFiber(mpo.P, m, o, o'));
    LactRViaAct(mps, mpo, m, s, o, s', o');
    ActRAt(TransposeCmpo(mpo), mps, m, o, s, o', s');
  }

  lemma LactRViaAct(mps: Cmps, mpo: Cmpo, m: nat, s: nat, o: nat, s': nat, o': nat)
    requires Compatible(mpo, mps) && m < |mps.R|
    requires s < |mps.Q| && o < |mpo.Q| && s' < |mps.Q| && o' < |mpo.Q|
    ensures Lact(mps, mpo).R[m][Flat(s, o, |mps.Q|, |mpo.Q|)][Flat(s', o', |mps.Q|, |mpo.Q|)]
      == Act(TransposeCmpo(mpo), mps).R[m][Flat(o, s, |mpo.Q|, |mps.Q|)][Flat(o', s', |mpo.Q|, |mps.Q|)]
  {
    var Do, Ds := |mpo.Q|, |mps.Q|;
    var ActT := Act(TransposeCmpo(mpo), mps);
    assert Lact(mps, mpo).R[m] == CommuteFactors(ActT.R[m], Do, Ds);
  }

  lemma TransposedFiber(mpo: Cmpo, m: nat, a: nat, b: nat)
    requires ValidCmpo(mpo) && m < |mpo.L| && a < |mpo.Q| && b < |mpo.Q|
    ensures forall n :: 0 <= n < |mpo.P| ==> m < |mpo.P[n]| && a < |mpo.P[n][m]| && b < |mpo.P[n][m][a]|
    ensures Fiber(TransposeCmpo(mpo).P[m], a, b) == InFiber(mpo.P, m, a, b)
  {
    var d := |mpo.L|;
    forall n | 0 <= n < d ensures IsMatrix(mpo.P[n][m], |mpo.Q|, |mpo.Q|) {
      assert IsTensor3(mpo.P[n], d, |mpo.Q|, |mpo.Q|);
    }
  }

  /**
   Each slice of `Lact(mps, mpo)`:
     R[m] = I (x) mpo.R[m] + sum_n mps.R[n] (x) mpo.P[n][m]
   with the state factor leading.
   */
  lemma LactREntries(mps: Cmps, mpo: Cmpo)
    requires Compatible(mpo, mps)
    ensures forall m: nat, s: nat, o: nat, s': nat, o': nat
      | m < |mps.R| && s < |mps.Q| && o < |mpo.Q| && s' < |mps.Q| && o' < |mpo.Q| ::
      Lact(mps, mpo).R[m][Flat(s, o, |mps.Q|, |mpo.Q|)][Flat(s', o', |mps.Q|, |mpo.Q|)]
        == Delta(s, s') * mpo.R[m][o][o'] + Dot(Fiber(mps.R, s, s'), InFiber(mpo.P, m, o, o'))
  {
    forall m: nat, s: nat, o: nat, s': nat, o': nat
      | m < |mps.R| && s < |mps.Q| && o < |mpo.Q| && s' < |mps.Q| && o' < |mpo.Q|
    {
      LactRAt(mps, mpo, m, s, o, s', o');
    }
  }

  /** Left action with the transposed cMPO is the right action read with its Kronecker factors commuted. */
  lemma LactOfTranspose(mps: Cmps, mpo: Cmpo)
    requires Compatible(mpo, mps)
    ensures Compatible(TransposeCmpo(mpo), mps)
    ensures Lact(mps, TransposeCmpo(mpo)).Q == CommuteFactors(Act(mpo, mps).Q, |mpo.Q|, |mps.Q|)
    ensures forall m :: 0 <= m < |mps.R| ==>
      Lact(mps, TransposeCmpo(mpo)).R[m] == CommuteFactors(Act(mpo, mps).R[m], |mpo.Q|, |mps.Q|)
  {
    TransposeTwice(mpo);
  }

  // ---------------------------------------------------------------------------
  // The bond-dimension-1 cMPO [[1, 0], [0, W]] drawn in the docstring of multiply

  /** The cMPO with `D = 1`, `Q = L = R = 0` and `P[m][n] = W[m][n]`. */
  function GaugeCmpo(W: Matrix): (o: Cmpo)
    requires IsSquare(W)
    ensures ValidCmpo(o) && |o.Q| == 1 && |o.L| == |W|
  {
    var d := |W|;
    Cmpo([[0.0]],
         seq(d, _ => [[0.0]]),
         seq(d, _ => [[0.0]]),
         seq(d, m requires 0 <= m < d => seq(d, n requires 0 <= n < d => [[W[m][n]]])))
  }

  /** Acting with the bond-dimension-1 cMPO of `W` is `multiply(W, .)`. */
  lemma ActGauge(W: Matrix, mps: Cmps)
    requires IsSquare(W) && ValidCmps(mps) && |W| == |mps.R|
    ensures Act(GaugeCmpo(W), mps) == Multiply(W, mps)
  {
    var r, t := Act(GaugeCmpo(W), mps), Multiply(W, mps);
    ActGaugeQ(W, mps);
    forall m | 0 <= m < |mps.R| ensures r.R[m] == t.R[m] {
      ActGaugeR(W, mps, m);
    }
  }

  lemma ActGaugeQ(W: Matrix, mps: Cmps)
    requires IsSquare(W) && ValidCmps(mps) && |W| == |mps.R|
    ensures Act(GaugeCmpo(W), mps).Q == mps.Q
  {
    var Ds := |mps.Q|;
    var o := GaugeCmpo(W);
    var r := Act(o, mps);
    forall c, e | 0 <= c < Ds && 0 <= e < Ds ensures r.Q[c][e] == mps.Q[c][e] {
      assert Flat(0, c, 1, Ds) == c && Flat(0, e, 1, Ds) == e;
      ActQAt(o, mps, 0, c, 0, e);
      DotZeroLeft(Fiber(o.R, 0, 0), Fiber(mps.R, c, e));
    }
    assert forall c :: 0 <= c < Ds ==> r.Q[c] == mps.Q[c];
  }

  lemma ActGaugeR(W: Matrix, mps: Cmps, m: nat)
    requires IsSquare(W) && ValidCmps(mps) && |W| == |mps.R| && m < |W|
    ensures Act(GaugeCmpo(W), mps).R[m] == Multiply(W, mps).R[m]
  {
    var Ds := |mps.Q|;
    var o := GaugeCmpo(W);
    var r, t := Act(o, mps), Multiply(W, mps);
    assert Fiber(o.P[m], 0, 0) == W[m];
    forall c, e | 0 <= c < Ds && 0 <= e < Ds ensures r.R[m][c][e] == t.R[m][c][e] {
      assert Flat(0, c, 1, Ds) == c && Flat(0, e, 1, Ds) == e;
      ActRAt(o, mps, m, 0, c, 0, e);
    }
    assert forall c :: 0 <= c < Ds ==> r.R[m][c] == t.R[m][c];
  }

  /** The identity cMPO acting on a cMPS returns it unchanged. */
  lemma ActIdentity(mps: Cmps)
    requires ValidCmps(mps)
    ensures Act(GaugeCmpo(Eye(|mps.R|)), mps) == mps
  {
    ActGauge(Eye(|mps.R|), mps);
    MultiplyEye(mps);
  }

  /** Left action of the bond-dimension-1 cMPO of `W` is `multiply(W^T, .)`. */
  lemma LactGauge(W: Matrix, mps: Cmps)
    requires IsSquare(W) && ValidCmps(mps) && |W| == |mps.R|
    ensures Lact(mps, GaugeCmpo(W)) == Multiply(Transpose(W, |W|), mps)
  {
    var d := |W|;
    var Wt := Transpose(W, d);
    assert TransposeCmpo(GaugeCmpo(W)) == GaugeCmpo(Wt) by {
      var l, r := TransposeCmpo(GaugeCmpo(W)), GaugeCmpo(Wt);
      assert forall m :: 0 <= m < d ==> l.P[m] == r.P[m];
    }
    ActGauge(Wt, mps);
    var T := Act(GaugeCmpo(Wt), mps);
    CommuteFactorsUnit(T.Q, |mps.Q|);
    forall m | 0 <= m < d ensures Lact(mps, GaugeCmpo(W)).R[m] == T.R[m] {
      CommuteFactorsUnit(T.R[m], |mps.Q|);
    }
  }

  /** The identity cMPO acting from the left returns the cMPS unchanged. */
  lemma LactIdentity(mps: Cmps)
    requires ValidCmps(mps)
    ensures Lact(mps, GaugeCmpo(Eye(|mps.R|))) == mps
  {
    LactGauge(Eye(|mps.R|), mps);
    TransposeEye(|mps.R|);
    MultiplyEye(mps);
  }
}

/**
 The Kronecker bond space of an operator (dimension `m`) and a state
 (dimension `n`): a pair of bond indices `(a, c)` is stored at the row-major
 flattened index `a * n + c`, which is what `.view(m*n, m*n)` does to a
 contiguous `(m, n, m, n)` tensor.
 */
module Kron {
  import opened Linalg

  lemma MulMono(x: nat, y: nat, n: nat)
    requires x <= y
    ensures x * n <= y * n
  {
  }

  lemma DivModUnique(i: int, n: int, a: int, c: int)
    requires n > 0 && 0 <= c < n && i == a * n + c
    ensures i / n == a && i % n == c
  {
    var q, r := i / n, i % n;
    assert i == q * n + r && 0 <= r < n;
    if q > a {
      MulMono(1, q - a, n);
      assert false;
    } else if q < a {
      MulMono(1, a - q, n);
      assert false;
    }
  }

  /** Index of the pair `(a, c)` in the row-major flattening of an `m x n` grid. */
  function Flat(a: nat, c: nat, m: nat, n: nat): (i: nat)
    requires a < m && c < n
    ensures i < m * n
    ensures i / n == a && i % n == c
  {
    MulMono(a + 1, m, n);
    DivModUnique(a * n + c, n, a, c);
    a * n + c
  }

  /** Every flattened index comes from exactly one pair. */
  lemma Split(i: nat, m: nat, n: nat)
    requires i < m * n
    ensures n > 0 && i / n < m && i % n < n
    ensures Flat(i / n, i % n, m, n) == i
  {
    assert n != 0;
    var q, r := i / n, i % n;
    assert i == q * n + r;
    if q >= m {
      MulMono(m, q, n);
      assert false;
    }
  }

  /** The pair stored at a flattened index. */
  lemma Unflat(i: nat, m: nat, n: nat) returns (a: nat, c: nat)
    requires i < m * n
    ensures a < m && c < n && Flat(a, c, m, n) == i
  {
    Split(i, m, n);
    a, c := i / n, i % n;
  }

  /** `T.view(m*n, m*n)` for `T` of shape `(m, n, m, n)`. */
  function View(T: Tensor4, m: nat, n: nat): (M: Matrix)
    requires IsTensor4(T, m, n, m, n)
    ensures IsMatrix(M, m * n, m * n)
    ensures forall a: nat, c: nat, b: nat, e: nat | a < m && c < n && b < m && e < n ::
      M[Flat(a, c, m, n)][Flat(b, e, m, n)] == T[a][c][b][e]
  {
    seq(m * n, i requires 0 <= i < m * n =>
      seq(m * n, j requires 0 <= j < m * n => ViewEntry(T, m, n, i, j)))
  }

  function ViewEntry(T: Tensor4, m: nat, n: nat, i: nat, j: nat): real
    requires IsTensor4(T, m, n, m, n) && i < m * n && j < m * n
  {
    Split(i, m, n);
    Split(j, m, n);
    T[i / n][i % n][j / n][j % n]
  }

  /** `M.view(m, n, m, n)` for `M` of shape `(m*n, m*n)`. */
  function Unview(M: Matrix, m: nat, n: nat): (T: Tensor4)
    requires IsMatrix(M, m * n, m * n)
    ensures IsTensor4(T, m, n, m, n)
    ensures forall a: nat, c: nat, b: nat, e: nat | a < m && c < n && b < m && e < n ::
      T[a][c][b][e] == M[Flat(a, c, m, n)][Flat(b, e, m, n)]
  {
    seq(m, a requires 0 <= a < m =>
      seq(n, c requires 0 <= c < n =>
        seq(m, b requires 0 <= b < m =>
          seq(n, e requires 0 <= e < n => M[Flat(a, c, m, n)][Flat(b, e, m, n)]))))
  }

  /** Reshaping to four legs and back is the identity on matrices. */
  lemma ViewUnview(M: Matrix, m: nat, n: nat)
    requires IsMatrix(M, m * n, m * n)
    ensures View(Unview(M, m, n), m, n) == M
  {
    var V := View(Unview(M, m, n), m, n);
    forall i, j | 0 <= i < m * n && 0 <= j < m * n ensures V[i][j] == M[i][j] {
      ViewUnviewAt(M, m, n, i, j);
    }
    assert forall i :: 0 <= i < m * n ==> V[i] == M[i];
  }

  lemma ViewUnviewAt(M: Matrix, m: nat, n: nat, i: nat, j: nat)
    requires IsMatrix(M, m * n, m * n) && i < m * n && j < m * n
    ensures View(Unview(M, m, n), m, n)[i][j] == M[i][j]
  {
    Split(i, m, n);
    Split(j, m, n);
    FlatEntry(M, m, n, i / n, i % n, j / n, j % n);
  }

  lemma FlatEntry(M: Matrix, m: nat, n: nat, a: nat, c: nat, b: nat, e: nat)
    requires IsMatrix(M, m * n, m * n) && a < m && c < n && b < m && e < n
    ensures View(Unview(M, m, n), m, n)[Flat(a, c, m, n)][Flat(b, e, m, n)] == M[Flat(a, c, m, n)][Flat(b, e, m, n)]
  {
  }

  /** Reshaping to a matrix and back is the identity on `(m, n, m, n)` tensors. */
  lemma UnviewView(T: Tensor4, m: nat, n: nat)
    requires IsTensor4(T, m, n, m, n)
    ensures Unview(View(T, m, n), m, n) == T
  {
    var U := Unview(View(T, m, n), m, n);
    forall a, c | 0 <= a < m && 0 <= c < n ensures U[a][c] == T[a][c] {
      forall b | 0 <= b < m ensures U[a][c][b] == T[a][c][b] {
        assert forall e :: 0 <= e < n ==> U[a][c][b][e] == T[a][c][b][e];
      }
    }
    assert forall a :: 0 <= a < m ==> U[a] == T[a];
  }

  /** `torch.einsum('abcd->badc', T)`: exchange the two Kronecker factors on both sides. */
  function SwapFactors(T: Tensor4, m: nat, n: nat): (S: Tensor4)
    requires IsTensor4(T, m, n, m, n)
    ensures IsTensor4(S, n, m, n, m)
    ensures forall a: nat, c: nat, b: nat, e: nat | a < m && c < n && b < m && e < n ::
      S[c][a][e][b] == T[a][c][b][e]
  {
    seq(n, b requires 0 <= b < n =>
      seq(m, a requires 0 <= a < m =>
        seq(n, d requires 0 <= d < n =>
          seq(m, c requires 0 <= c < m => T[a][b][c][d]))))
  }

  /** Exchanging the Kronecker factors twice gives back the tensor. */
  lemma SwapFactorsInvolution(T: Tensor4, m: nat, n: nat)
    requires IsTensor4(T, m, n, m, n)
    ensures SwapFactors(SwapFactors(T, m, n), n, m) == T
  {
    var S := SwapFactors(SwapFactors(T, m, n), n, m);
    forall a, c | 0 <= a < m && 0 <= c < n ensures S[a][c] == T[a][c] {
      forall b | 0 <= b < m ensures S[a][c][b] == T[a][c][b] {
        assert forall e :: 0 <= e < n ==> S[a][c][b][e] == T[a][c][b][e];
      }
    }
    assert forall a :: 0 <= a < m ==> S[a] == T[a];
  }

  /**
   The matrix of the same operator with its two Kronecker factors in the
   other order: `.view(m, n, m, n)`, then `'abcd->badc'`, then `.view(m*n, m*n)`.
   */
  function CommuteFactors(M: Matrix, m: nat, n: nat): (C: Matrix)
    requires IsMatrix(M, m * n, m * n)
    ensures IsMatrix(C, n * m, n * m)
    ensures forall a: nat, c: nat, b: nat, e: nat | a < m && c < n && b < m && e < n ::
      C[Flat(c, a, n, m)][Flat(e, b, n, m)] == M[Flat(a, c, m, n)][Flat(b, e, m, n)]
  {
    View(SwapFactors(Unview(M, m, n), m, n), n, m)
  }

  /** Where `CommuteFactors` sends a flattened index: `(a, c)` at `a*n + c` goes to `(c, a)` at `c*m + a`. */
  function Commute(i: nat, m: nat, n: nat): (k: nat)
    requires i < m * n
    ensures k < n * m
  {
    Split(i, m, n);
    Flat(i % n, i / n, n, m)
  }

  /** The commutation reindexing is its own inverse, hence a bijection of `[0, m*n)`. */
  lemma CommuteInvolution(i: nat, m: nat, n: nat)
    requires i < m * n
    ensures Commute(Commute(i, m, n), n, m) == i
  {
    Split(i, m, n);
  }

  /** `CommuteFactors` moves entry `(i, j)` to `(Commute(i), Commute(j))`. */
  lemma CommuteFactorsAt(M: Matrix, m: nat, n: nat, i: nat, j: nat)
    requires IsMatrix(M, m * n, m * n) && i < m * n && j < m * n
    ensures CommuteFactors(M, m, n)[Commute(i, m, n)][Commute(j, m, n)] == M[i][j]
  {
    Split(i, m, n);
    Split(j, m, n);
  }

  /** Two matrices on the flattened space are equal when they agree at every pair of index pairs. */
  lemma FlatExt(A: Matrix, B: Matrix, m: nat, n: nat)
    requires IsMatrix(A, m * n, m * n) && IsMatrix(B, m * n, m * n)
    requires forall a: nat, c: nat, b: nat, e: nat | a < m && c < n && b < m && e < n ::
      A[Flat(a, c, m, n)][Flat(b, e, m, n)] == B[Flat(a, c, m, n)][Flat(b, e, m, n)]
    ensures A == B
  {
    forall i, j | 0 <= i < m * n && 0 <= j < m * n ensures A[i][j] == B[i][j] {
      var a, c := Unflat(i, m, n);
      var b, e := Unflat(j, m, n);
    }
    assert forall i :: 0 <= i < m * n ==> A[i] == B[i];
  }

  /** Commuting the factors twice gives back the original matrix. */
  lemma CommuteFactorsInvolution(M: Matrix, m: nat, n: nat)
    requires IsMatrix(M, m * n, m * n)
    ensures CommuteFactors(CommuteFactors(M, m, n), n, m) == M
  {
    var X := CommuteFactors(M, m, n);
    var C := CommuteFactors(X, n, m);
    forall a: nat, c: nat, b: nat, e: nat | a < m && c < n && b < m && e < n
      ensures C[Flat(a, c, m, n)][Flat(b, e, m, n)] == M[Flat(a, c, m, n)][Flat(b, e, m, n)]
    {
      assert C[Flat(a, c, m, n)][Flat(b, e, m, n)] == X[Flat(c, a, n, m)][Flat(e, b, n, m)];
    }
    FlatExt(C, M, m, n);
  }

  /** With a one-dimensional first factor there is nothing to commute. */
  lemma CommuteFactorsUnit(M: Matrix, n: nat)
    requires IsMatrix(M, 1 * n, 1 * n)
    ensures CommuteFactors(M, 1, n) == M
  {
    var C := CommuteFactors(M, 1, n);
    forall i, j | 0 <= i < n && 0 <= j < n ensures C[i][j] == M[i][j] {
      assert Flat(i, 0, n, 1) == i == Flat(0, i, 1, n);
      assert Flat(j, 0, n, 1) == j == Flat(0, j, 1, n);
    }
    assert forall i :: 0 <= i < n ==> C[i] == M[i];
  }
}

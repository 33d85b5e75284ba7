/**
 Control logic of the compression pipeline: the initial isometry of
 `energy_cut`, the backtracking line search on the step angle theta and the
 outer loop of `adaptive_mera_update`, and the gauge fixing, skip path and
 max-shift normalisation of `variational_compr`.

 Everything numerical the pipeline delegates (eigenvectors, the log-trace-exp,
 autograd, SVD, the LBFGS optimiser) is an oracle passed in as a function.
 */
module Optimiser {
  import opened Linalg
  import opened Tensors
  import opened Actions

  datatype Option<T> = None | Some(value: T)

  /**
   The numerical collaborators, fixed for one run:
   `logTrExpm(beta, M)` is `LogTrExpm.apply`; `eigenvectors(M)` is the
   eigenvector matrix of `eigensolver(M)`, columns in ascending eigenvalue
   order; `gradient(P)` is `torch.autograd.grad(loss, P)` for the loss at
   the isometry `P`; `retract(G)` is `U @ V.t()` from `torch.svd(G)`;
   `interpolate(A, B, theta)` is `interpolate_cut`.
   */
  datatype Numerics = Numerics(
    logTrExpm: (real, Matrix) -> real,
    eigenvectors: Matrix -> Matrix,
    gradient: Matrix -> Matrix,
    retract: Matrix -> Matrix,
    interpolate: (Matrix, Matrix, real) -> Matrix)

  /** `eigensolver` returns a square eigenvector matrix of the size of its argument. */
  ghost predicate EigenShapes(num: Numerics) {
    forall M: Matrix {:trigger num.eigenvectors(M)} :: IsSquare(M) ==> IsMatrix(num.eigenvectors(M), |M|, |M|)
  }

  /** `interpolate_cut` returns an isometry of the shape `D x k` of its arguments. */
  ghost predicate InterpolateShapes(num: Numerics, D: nat, k: nat) {
    forall A: Matrix, B: Matrix, theta: real :: IsMatrix(num.interpolate(A, B, theta), D, k)
  }

  // ---------------------------------------------------------------------------
  // energy_cut

  /** Number of columns Python's `v[:, -chi:]` keeps of `n`. */
  function CutWidth(chi: int, n: nat): (w: nat)
    ensures w <= n
  {
    if chi > 0 then (if chi > n then n else chi)
    else if -chi > n then 0
    else n + chi
  }

  /**
   `energy_cut(mps, chi)`: the last `chi` columns of the eigenvector matrix of
   `Q`, i.e. the eigenvectors of its `chi` largest eigenvalues.
   */
  function EnergyCut(mps: Cmps, chi: int, num: Numerics): (P: Matrix)
    requires ValidCmps(mps) && EigenShapes(num)
    ensures IsMatrix(P, |mps.Q|, CutWidth(chi, |mps.Q|))
    ensures var D, v := |mps.Q|, num.eigenvectors(mps.Q);
      forall i :: 0 <= i < D ==> P[i] == v[i][D - CutWidth(chi, D)..]
    ensures 1 <= chi <= |mps.Q| ==> CutWidth(chi, |mps.Q|) == chi
    ensures chi >= |mps.Q| || chi == 0 ==> P == num.eigenvectors(mps.Q)
  {
    var D, v := |mps.Q|, num.eigenvectors(mps.Q);
    var start := D - CutWidth(chi, D);
    var P := seq(D, i requires 0 <= i < D => v[i][start..]);
    assert chi >= D || chi == 0 ==> start == 0 && forall i :: 0 <= i < D ==> P[i] == v[i];
    P
  }

  // ---------------------------------------------------------------------------
  // The step angle of the line search

  /** `np.pi` as a double. */
  const Pi: real := 3.141592653589793

  /** The line search never tries more angles than this. */
  const MaxTrials: nat := 12

  function Pow(x: real, k: nat): real {
    if k == 0 then 1.0 else x * Pow(x, k - 1)
  }

  /** `np.pi / 1.9**12`: below this angle the step is abandoned. */
  const ThetaCutoff: real := Pi / Pow(1.9, 12)

  /** The angle of trial `k`: `theta` starts at `pi` and is halved before each trial. */
  function Theta(k: nat): real {
    if k == 0 then Pi else Theta(k - 1) / 2.0
  }

  /** `np.isclose(a, b)` with its default tolerances `rtol = 1e-5`, `atol = 1e-8`. */
  predicate IsClose(a: real, b: real) {
    var diff := if a - b < 0.0 then b - a else a - b;
    var mag := if b < 0.0 then -b else b;
    diff <= 0.00000001 + 0.00001 * mag
  }

  lemma {:induction false} ThetaDecreasing(j: nat, k: nat)
    requires j <= k
    ensures 0.0 < Theta(k) <= Theta(j)
    decreases k - j
  {
    if j < k {
      ThetaDecreasing(j, k - 1);
    } else {
      ThetaPositive(k);
    }
  }

  lemma {:induction false} ThetaPositive(k: nat)
    ensures Theta(k) > 0.0
  {
    if k > 0 {
      ThetaPositive(k - 1);
    }
  }

  /** Trial `k` tries the angle `pi / 2**k`. */
  lemma {:induction false} ThetaClosedForm(k: nat)
    ensures Theta(k) * Pow(2.0, k) == Pi
  {
    if k > 0 {
      ThetaClosedForm(k - 1);
      assert Theta(k) * Pow(2.0, k) == (Theta(k - 1) / 2.0) * (2.0 * Pow(2.0, k - 1));
    }
  }

  /**
   The cutoff `pi / 1.9**12` is first undercut at the twelfth halving, and no
   earlier angle is `isclose` to zero.
   */
  lemma TrialGuard(k: nat)
    requires 1 <= k <= MaxTrials
    ensures Theta(k) < ThetaCutoff <==> k == MaxTrials
    ensures k < MaxTrials ==> !IsClose(Theta(k), 0.0)
  {
    assert Pow(1.9, 12) == 2213.314919066161;
    assert Theta(11) == Pi / 2048.0;
    assert Theta(12) == Pi / 4096.0;
    if k < MaxTrials {
      ThetaDecreasing(k, 11);
    }
  }

  // ---------------------------------------------------------------------------
  // Line search
  //
  // The search only sees the fidelity as a function of the candidate
  // isometry, `P_test -> Fidelity(mps.project(P_test), mps, beta)`, and
  // `interpolate_cut`; it is stated for any such pair.

  /** The trial the line search accepts: the isometry `P_test`, its angle and its trial number. */
  datatype Trial = Trial(test: Matrix, theta: real, k: nat)

  /**
   The line search from trial `t` on, as a reference: the first accepted
   trial. An angle below the cutoff is set to zero and the unchanged `P` is
   accepted because `isclose(0, 0)` holds.
   */
  function SearchFrom(interpolate: (Matrix, Matrix, real) -> Matrix, fidelity: Matrix -> real,
                      P: Matrix, G: Matrix, fidel0: real, t: nat): (r: Trial)
    requires 1 <= t <= MaxTrials
    ensures t <= r.k <= MaxTrials
    ensures r.k < MaxTrials ==>
      r.theta == Theta(r.k) && r.test == interpolate(G, P, r.theta) && fidelity(r.test) > fidel0
    ensures r.k == MaxTrials ==> r.theta == 0.0 && r.test == P
    ensures forall j :: t <= j < r.k ==> fidelity(interpolate(G, P, Theta(j))) <= fidel0
    decreases MaxTrials - t
  {
    TrialGuard(t);
    var theta := Theta(t);
    var (angle, test) := if theta < ThetaCutoff then (0.0, P) else (theta, interpolate(G, P, theta));
    if fidelity(test) > fidel0 || IsClose(angle, 0.0) then
      Trial(test, angle, t)
    else
      SearchFrom(interpolate, fidelity, P, G, fidel0, t + 1)
  }

  /**
   The inner `while proceed == False` loop: halve `theta`, try the
   interpolated isometry, accept the first that improves on `fidel0`, or give
   up after `MaxTrials` halvings and keep `P`.
   */
  method LineSearch(interpolate: (Matrix, Matrix, real) -> Matrix, fidelity: Matrix -> real,
                    P: Matrix, G: Matrix, fidel0: real)
    returns (next: Matrix, theta: real, trials: nat)
    ensures Trial(next, theta, trials) == SearchFrom(interpolate, fidelity, P, G, fidel0, 1)
    ensures 1 <= trials <= MaxTrials
    ensures theta == 0.0 <==> trials == MaxTrials
  {
    theta := Pi;
    trials := 0;
    next := P;
    var proceed := false;
    while !proceed
      invariant 0 <= trials <= MaxTrials
      invariant !proceed ==> trials < MaxTrials && theta == Theta(trials)
      invariant !proceed ==>
        SearchFrom(interpolate, fidelity, P, G, fidel0, 1) == SearchFrom(interpolate, fidelity, P, G, fidel0, trials + 1)
      invariant proceed ==> 1 <= trials && Trial(next, theta, trials) == SearchFrom(interpolate, fidelity, P, G, fidel0, 1)
      decreases MaxTrials - trials, if proceed then 0 else 1
    {
      theta := theta / 2.0;
      trials := trials + 1;
      TrialGuard(trials);
      var test;
      if theta < ThetaCutoff {
        theta := 0.0;
        test := P;
      } else {
        test := interpolate(G, P, theta);
      }
      if fidelity(test) > fidel0 || IsClose(theta, 0.0) {
        next := test;
        proceed := true;
      }
    }
    ThetaPositive(trials);
  }

  // ---------------------------------------------------------------------------
  // adaptive_mera_update
  //
  // The outer loop is stated for any objective: the loss of an isometry, the
  // descent direction at it, and the interpolation the line search uses.

  function Abs(x: real): real {
    if x < 0.0 then -x else x
  }

  /** What the outer loop optimises: `interpolate_cut`, the loss of `P`, and the search direction at `P`. */
  datatype Objective = Objective(
    interpolate: (Matrix, Matrix, real) -> Matrix,
    fidelity: Matrix -> real,
    direction: Matrix -> Matrix)

  /** The default `maxiter` of `adaptive_mera_update`, the one `variational_compr` uses. */
  const DefaultMaxIter: int := 50

  /** `last` before the first iteration. */
  const InitialLast: real := 9.9e9

  /** One outer step from `P`: the line search along `direction(P)` against the loss at `P`. */
  function Step(ob: Objective, P: Matrix): Matrix {
    SearchFrom(ob.interpolate, ob.fidelity, P, ob.direction(P), ob.fidelity(P), 1).test
  }

  function StepOf(ob: Objective): Matrix -> Matrix {
    P => Step(ob, P)
  }

  // The reference definitions of the loop below only see one outer step as
  // a function `step` and the loss as a function `loss`.

  /** The isometry `P` at the start of outer iteration `n` (counting from 0), starting at `P0`. */
  function Trajectory(step: Matrix -> Matrix, P0: Matrix, n: nat): Matrix
    decreases n
  {
    if n == 0 then P0 else step(Trajectory(step, P0, n - 1))
  }

  /** `last` in iteration `n`: the initial `9.9e9`, then the loss of the previous iterate. */
  function PriorLoss(step: Matrix -> Matrix, loss: Matrix -> real, P0: Matrix, n: nat): real {
    if n == 0 then InitialLast else loss(Trajectory(step, P0, n - 1))
  }

  /** Iteration `n` takes the early exit: `abs(loss - last) < tol`. */
  predicate Settled(step: Matrix -> Matrix, loss: Matrix -> real, P0: Matrix, tol: real, n: nat) {
    Abs(loss(Trajectory(step, P0, n)) - PriorLoss(step, loss, P0, n)) < tol
  }

  /**
   How the outer loop ends: the isometry of the last `mps.project(P)`
   (`None` when the body never ran), `P` at the exit, the `step` counter, and
   whether the exit was the tolerance `break`.
   */
  datatype Outcome = Outcome(basis: Option<Matrix>, final: Matrix, steps: nat, converged: bool)

  /** The outer loop from iteration `j` on, as a reference. */
  function OuterLoopFrom(step: Matrix -> Matrix, loss: Matrix -> real, P0: Matrix, tol: real, maxiter: int, j: nat)
    : (o: Outcome)
    requires j < maxiter
    ensures j <= o.steps <= maxiter
    ensures forall i :: j <= i < o.steps ==> !Settled(step, loss, P0, tol, i)
    ensures o.converged ==>
      && o.steps < maxiter && Settled(step, loss, P0, tol, o.steps)
      && o.final == Trajectory(step, P0, o.steps) && o.basis == Some(o.final)
    ensures !o.converged ==>
      && o.steps == maxiter
      && o.final == Trajectory(step, P0, o.steps) && o.basis == Some(Trajectory(step, P0, o.steps - 1))
    decreases maxiter - j
  {
    if Settled(step, loss, P0, tol, j) then
      Outcome(Some(Trajectory(step, P0, j)), Trajectory(step, P0, j), j, true)
    else if j + 1 < maxiter then
      OuterLoopFrom(step, loss, P0, tol, maxiter, j + 1)
    else
      Outcome(Some(Trajectory(step, P0, j)), Trajectory(step, P0, j + 1), j + 1, false)
  }

  /**
   The `while step < maxiter` loop of `adaptive_mera_update`, as a reference:
   it stops at the first iteration whose loss is within `tol` of the
   previous one, and otherwise after `maxiter` iterations.
   */
  function OuterLoop(step: Matrix -> Matrix, loss: Matrix -> real, P0: Matrix, tol: real, maxiter: int): (o: Outcome)
    ensures o.basis.Some? <==> maxiter > 0
    ensures maxiter <= 0 ==> o.steps == 0 && !o.converged && o.final == P0
    ensures forall i :: 0 <= i < o.steps ==> !Settled(step, loss, P0, tol, i)
    ensures o.converged ==>
      && o.steps < maxiter && Settled(step, loss, P0, tol, o.steps)
      && o.final == Trajectory(step, P0, o.steps) && o.basis == Some(o.final)
    ensures maxiter > 0 && !o.converged ==>
      && o.steps == maxiter
      && o.final == Trajectory(step, P0, o.steps) && o.basis == Some(Trajectory(step, P0, o.steps - 1))
  {
    if maxiter <= 0 then Outcome(None, P0, 0, false) else OuterLoopFrom(step, loss, P0, tol, maxiter, 0)
  }

  /** An iteration that meets the tolerance ends the loop with `P` as the projection basis. */
  lemma OuterLoopStop(step: Matrix -> Matrix, loss: Matrix -> real, P0: Matrix, tol: real, maxiter: int, j: nat)
    requires j < maxiter && Settled(step, loss, P0, tol, j)
    ensures OuterLoopFrom(step, loss, P0, tol, maxiter, j)
      == Outcome(Some(Trajectory(step, P0, j)), Trajectory(step, P0, j), j, true)
  {
  }

  /** An iteration that misses the tolerance takes one step, and is the last one when the budget is used up. */
  lemma OuterLoopAdvance(step: Matrix -> Matrix, loss: Matrix -> real, P0: Matrix, tol: real, maxiter: int, j: nat)
    requires j < maxiter && !Settled(step, loss, P0, tol, j)
    ensures j + 1 < maxiter ==>
      OuterLoopFrom(step, loss, P0, tol, maxiter, j) == OuterLoopFrom(step, loss, P0, tol, maxiter, j + 1)
    ensures j + 1 == maxiter ==>
      OuterLoopFrom(step, loss, P0, tol, maxiter, j)
        == Outcome(Some(Trajectory(step, P0, j)), step(Trajectory(step, P0, j)), j + 1, false)
  {
  }

  /** `step` takes one outer step of `ob` from `P`. */
  predicate StepsAt(ob: Objective, step: Matrix -> Matrix, P: Matrix) {
    step(P) == Step(ob, P)
  }

  /**
   The outer loop of `adaptive_mera_update`, with `step` standing for the
   line search of `ob`. Besides the outcome it returns the last `loss` and
   the `last` it was compared with.
   */
  method Descend(ob: Objective, step: Matrix -> Matrix, D: nat, k: nat, P0: Matrix, tol: real, maxiter: int)
    returns (basis: Option<Matrix>, final: Matrix, steps: nat, converged: bool, loss: real, previous: real)
    requires IsMatrix(P0, D, k)
    requires forall A: Matrix, B: Matrix, theta: real :: IsMatrix(ob.interpolate(A, B, theta), D, k)
    requires forall P :: StepsAt(ob, step, P)
    ensures Outcome(basis, final, steps, converged) == OuterLoop(step, ob.fidelity, P0, tol, maxiter)
    ensures basis.Some? ==> loss == ob.fidelity(basis.value)
    ensures converged ==> previous == PriorLoss(step, ob.fidelity, P0, steps)
  {
    var fidelity := ob.fidelity;
    var P := P0;
    var last := InitialLast;
    steps := 0;
    basis, converged, loss, previous := None, false, 0.0, last;
    while steps < maxiter
      invariant IsMatrix(P, D, k)
      invariant steps == 0 || steps <= maxiter
      invariant !converged
      invariant P == Trajectory(step, P0, steps) && last == PriorLoss(step, fidelity, P0, steps)
      invariant steps == 0 ==> basis.None?
      invariant steps > 0 ==> basis == Some(Trajectory(step, P0, steps - 1)) && loss == fidelity(basis.value)
      invariant steps < maxiter ==>
        OuterLoop(step, fidelity, P0, tol, maxiter) == OuterLoopFrom(step, fidelity, P0, tol, maxiter, steps)
      invariant 0 < steps == maxiter ==> OuterLoop(step, fidelity, P0, tol, maxiter) == Outcome(basis, P, steps, false)
      decreases maxiter - steps
    {
      basis := Some(P);
      loss := fidelity(P);
      previous := last;
      var diff := Abs(loss - last);
      if diff < tol {
        OuterLoopStop(step, fidelity, P0, tol, maxiter, steps);
        converged := true;
        break;
      }
      OuterLoopAdvance(step, fidelity, P0, tol, maxiter, steps);
      last := loss;
      steps := steps + 1;
      P := OuterStep(ob, step, P, D, k);
    }
    final := P;
  }

  /** The body of one outer iteration after the tolerance test: the line search from `P` against its loss. */
  method OuterStep(ob: Objective, step: Matrix -> Matrix, P: Matrix, D: nat, k: nat) returns (next: Matrix)
    requires IsMatrix(P, D, k)
    requires forall A: Matrix, B: Matrix, theta: real :: IsMatrix(ob.interpolate(A, B, theta), D, k)
    requires StepsAt(ob, step, P)
    ensures next == step(P) && IsMatrix(next, D, k)
  {
    var theta, trials;
    next, theta, trials := LineSearch(ob.interpolate, ob.fidelity, P, ob.direction(P), ob.fidelity(P));
    StepShape(ob, P, D, k);
  }

  /** Every isometry one outer step accepts keeps the shape `D x k`. */
  lemma StepShape(ob: Objective, P: Matrix, D: nat, k: nat)
    requires IsMatrix(P, D, k)
    requires forall A: Matrix, B: Matrix, theta: real :: IsMatrix(ob.interpolate(A, B, theta), D, k)
    ensures IsMatrix(StepOf(ob)(P), D, k)
  {
  }

  /** Every isometry the outer loop visits keeps the shape `D x k` of the initial one. */
  lemma {:induction false} TrajectoryShape(step: Matrix -> Matrix, P0: Matrix, D: nat, k: nat, n: nat)
    requires IsMatrix(P0, D, k)
    requires forall P :: IsMatrix(P, D, k) ==> IsMatrix(step(P), D, k)
    ensures IsMatrix(Trajectory(step, P0, n), D, k)
  {
    if n > 0 {
      TrajectoryShape(step, P0, D, k, n - 1);
    }
  }

  /** `P_test -> Fidelity(mps.project(P_test), mps, beta)` on isometries of shape `D x k`. */
  function FidelityOf(num: Numerics, mps: Cmps, beta: real, k: nat): (f: Matrix -> real)
    requires ValidCmps(mps)
    ensures forall P :: IsMatrix(P, |mps.Q|, k) ==> f(P) == Fidelity(num.logTrExpm, ProjectCmps(mps, P, k), mps, beta)
  {
    P => if IsMatrix(P, |mps.Q|, k) then Fidelity(num.logTrExpm, ProjectCmps(mps, P, k), mps, beta) else 0.0
  }

  /** The descent direction at `P`: the SVD retraction of the gradient. */
  function Direction(num: Numerics): Matrix -> Matrix {
    P => num.retract(num.gradient(P))
  }

  /**
   The loss of the isometry stage at `P`: `ln_ovlp(mps_new, mps) -
   0.5 * ln_ovlp(mps_new, mps_new.detach())` with `mps_new = mps.project(P)`;
   `detach` only cuts the autograd graph and is the identity on values.
   */
  function AdaptiveLoss(num: Numerics, mps: Cmps, beta: real, P: Matrix, k: nat): real
    requires ValidCmps(mps) && IsMatrix(P, |mps.Q|, k)
  {
    var mpsNew := ProjectCmps(mps, P, k);
    LnOvlp(num.logTrExpm, mpsNew, mps, beta) - 0.5 * LnOvlp(num.logTrExpm, mpsNew, mpsNew, beta)
  }

  /** The loss the outer loop records is the fidelity the line search compares it with. */
  lemma AdaptiveLossIsFidelity(num: Numerics, mps: Cmps, beta: real, P: Matrix, k: nat)
    requires ValidCmps(mps) && IsMatrix(P, |mps.Q|, k)
    ensures AdaptiveLoss(num, mps, beta, P, k) == FidelityOf(num, mps, beta, k)(P)
  {
  }

  /** The isometries the outer loop ends with keep the shape `D x k` of the initial one. */
  lemma OuterLoopShape(step: Matrix -> Matrix, loss: Matrix -> real, P0: Matrix, tol: real, maxiter: int, D: nat, k: nat)
    requires IsMatrix(P0, D, k)
    requires forall P :: IsMatrix(P, D, k) ==> IsMatrix(step(P), D, k)
    ensures var o := OuterLoop(step, loss, P0, tol, maxiter);
      IsMatrix(o.final, D, k) && (o.basis.Some? ==> IsMatrix(o.basis.value, D, k))
  {
    var o := OuterLoop(step, loss, P0, tol, maxiter);
    TrajectoryShape(step, P0, D, k, o.steps);
    if o.steps > 0 {
      TrajectoryShape(step, P0, D, k, o.steps - 1);
    }
  }

  /** One outer step keeps the shape `D x k`, for every isometry of that shape. */
  lemma StepsShape(ob: Objective, D: nat, k: nat)
    requires forall A: Matrix, B: Matrix, theta: real :: IsMatrix(ob.interpolate(A, B, theta), D, k)
    ensures forall P :: IsMatrix(P, D, k) ==> IsMatrix(StepOf(ob)(P), D, k)
  {
    forall P | IsMatrix(P, D, k) ensures IsMatrix(StepOf(ob)(P), D, k) {
      StepShape(ob, P, D, k);
    }
  }

  /** The objective of the isometry stage for a target width `k`. */
  function MeraObjective(num: Numerics, mps: Cmps, beta: real, k: nat): Objective
    requires ValidCmps(mps)
  {
    Objective(num.interpolate, FidelityOf(num, mps, beta, k), Direction(num))
  }

  /** The outer loop of `adaptive_mera_update`, started from `energy_cut(mps, chi)`. */
  function IsometryStage(num: Numerics, mps: Cmps, beta: real, chi: int, tol: real, maxiter: int): (o: Outcome)
    requires ValidCmps(mps) && EigenShapes(num)
    requires InterpolateShapes(num, |mps.Q|, CutWidth(chi, |mps.Q|))
    ensures var D, k := |mps.Q|, CutWidth(chi, |mps.Q|);
      IsMatrix(o.final, D, k) && (o.basis.Some? ==> IsMatrix(o.basis.value, D, k))
    ensures o.basis.Some? <==> maxiter > 0
  {
    var D, k := |mps.Q|, CutWidth(chi, |mps.Q|);
    var ob, P0 := MeraObjective(num, mps, beta, k), EnergyCut(mps, chi, num);
    StepsShape(ob, D, k);
    OuterLoopShape(StepOf(ob), ob.fidelity, P0, tol, maxiter, D, k);
    OuterLoop(StepOf(ob), ob.fidelity, P0, tol, maxiter)
  }

  /**
   `adaptive_mera_update(mps, beta, chi, tol, maxiter)` as a value: the
   projection by the isometry of the last outer iteration. It is `None` when
   the loop body never runs (`mps_new` is then unbound and Python raises).
   */
  function AdaptiveMera(num: Numerics, mps: Cmps, beta: real, chi: int, tol: real, maxiter: int): (r: Option<Cmps>)
    requires ValidCmps(mps) && EigenShapes(num)
    requires InterpolateShapes(num, |mps.Q|, CutWidth(chi, |mps.Q|))
    ensures r.Some? <==> maxiter > 0
    ensures r.Some? ==>
      ValidCmps(r.value) && |r.value.Q| == CutWidth(chi, |mps.Q|) && |r.value.R| == |mps.R|
  {
    var o := IsometryStage(num, mps, beta, chi, tol, maxiter);
    if o.basis.Some? then Some(ProjectCmps(mps, o.basis.value, CutWidth(chi, |mps.Q|))) else None
  }

  /**
   `adaptive_mera_update(mps, beta, chi, tol, maxiter)`. The result is the
   projection by `basis`, the isometry at the start of the last outer
   iteration, and not by `final`, the isometry the last line search accepted;
   the two differ unless the loop exited on the tolerance or the last line
   search kept `P`.
   */
  method AdaptiveMeraUpdate(num: Numerics, mps: Cmps, beta: real, chi: int, tol: real, maxiter: int)
    returns (result: Option<Cmps>, basis: Option<Matrix>, final: Matrix, steps: nat, converged: bool)
    requires ValidCmps(mps) && EigenShapes(num)
    requires InterpolateShapes(num, |mps.Q|, CutWidth(chi, |mps.Q|))
    ensures result == AdaptiveMera(num, mps, beta, chi, tol, maxiter)
    ensures Outcome(basis, final, steps, converged) == IsometryStage(num, mps, beta, chi, tol, maxiter)
    ensures var k := CutWidth(chi, |mps.Q|);
      result.Some? ==> basis.Some? && IsMatrix(basis.value, |mps.Q|, k) && result.value == ProjectCmps(mps, basis.value, k)
    ensures var k := CutWidth(chi, |mps.Q|);
      var ob, P0 := MeraObjective(num, mps, beta, k), EnergyCut(mps, chi, num);
      var step, loss := StepOf(ob), ob.fidelity;
      && final == Trajectory(step, P0, steps)
      && (basis.Some? ==> basis.value == Trajectory(step, P0, if converged then steps else steps - 1))
      && (forall i :: 0 <= i < steps ==> !Settled(step, loss, P0, tol, i))
      && (converged ==> steps < maxiter && Settled(step, loss, P0, tol, steps))
      && (maxiter > 0 && !converged ==> steps == maxiter)
  {
    var D, k := |mps.Q|, CutWidth(chi, |mps.Q|);
    var P0 := EnergyCut(mps, chi, num);
    var ob := MeraObjective(num, mps, beta, k);
    var loss, previous;
    basis, final, steps, converged, loss, previous := Descend(ob, StepOf(ob), D, k, P0, tol, maxiter);
    var o := IsometryStage(num, mps, beta, chi, tol, maxiter);
    assert Outcome(basis, final, steps, converged) == o;
    result := if basis.Some? then Some(ProjectCmps(mps, basis.value, k)) else None;
  }

  // ---------------------------------------------------------------------------
  // variational_compr

  /** Largest entry, `torch.max` of a non-empty vector. */
  function Max(q: Vector): (m: real)
    requires |q| > 0
    ensures forall i :: 0 <= i < |q| ==> q[i] <= m
    ensures exists i :: 0 <= i < |q| && q[i] == m
    decreases |q|
  {
    if |q| == 1 then q[0]
    else
      var m' := Max(q[..|q| - 1]);
      if q[|q| - 1] > m' then q[|q| - 1] else m'
  }

  /**
   `Q -= torch.max(Q)`: shift the diagonal so that its largest entry is zero.
   `torch.max` of an empty vector raises, modelled as `None`.
   */
  function Normalize(q: Vector): (r: Option<Vector>)
    ensures r.Some? <==> |q| > 0
    ensures r.Some? ==> |r.value| == |q|
    ensures r.Some? ==> forall i :: 0 <= i < |q| ==> r.value[i] <= 0.0
    ensures r.Some? ==> exists i :: 0 <= i < |q| && r.value[i] == 0.0
    ensures r.Some? ==> forall i, j :: 0 <= i < |q| && 0 <= j < |q| ==> r.value[i] - r.value[j] == q[i] - q[j]
  {
    if |q| == 0 then None
    else
      var m := Max(q);
      var r := seq(|q|, i requires 0 <= i < |q| => q[i] - m);
      ShiftedMaxIsZero(q, r);
      Some(r)
  }

  lemma ShiftedMaxIsZero(q: Vector, r: Vector)
    requires |q| > 0 && |r| == |q|
    requires forall i :: 0 <= i < |q| ==> r[i] == q[i] - Max(q)
    ensures exists i :: 0 <= i < |r| && r[i] == 0.0
  {
    var i :| 0 <= i < |q| && q[i] == Max(q);
    assert r[i] == 0.0;
  }

  /** The largest entry of a shifted vector is shifted by the same amount. */
  lemma {:induction false} MaxShift(q: Vector, c: real, q': Vector)
    requires |q| > 0 && |q'| == |q|
    requires forall i :: 0 <= i < |q| ==> q'[i] == q[i] + c
    ensures Max(q') == Max(q) + c
    decreases |q|
  {
    if |q| > 1 {
      var n := |q| - 1;
      MaxShift(q[..n], c, q'[..n]);
    }
  }

  /** Normalising removes an overall energy shift: `Q` and `Q + c` normalise alike. */
  lemma NormalizeShiftInvariant(q: Vector, c: real)
    ensures Normalize(seq(|q|, i requires 0 <= i < |q| => q[i] + c)) == Normalize(q)
  {
    var q' := seq(|q|, i requires 0 <= i < |q| => q[i] + c);
    if |q| > 0 {
      MaxShift(q, c, q');
      var l, r := Normalize(q').value, Normalize(q).value;
      assert forall i :: 0 <= i < |q| ==> l[i] == q'[i] - Max(q') == q[i] - Max(q) == r[i];
      assert l == r;
    }
  }

  /** Normalising twice is normalising once. */
  lemma NormalizeIdempotent(q: Vector)
    requires |q| > 0
    ensures Normalize(Normalize(q).value) == Normalize(q)
  {
    var r := Normalize(q).value;
    var i :| 0 <= i < |r| && r[i] == 0.0;
    assert Max(r) == 0.0;
    assert Normalize(r).value == r;
  }

  /** `torch.diag` of a square matrix: its diagonal. */
  function Diagonal(A: Matrix): (v: Vector)
    requires IsSquare(A)
    ensures |v| == |A|
  {
    seq(|A|, i requires 0 <= i < |A| => A[i][i])
  }

  /** `torch.diag` of a vector: the diagonal matrix. */
  function DiagMatrix(v: Vector): (A: Matrix)
    ensures IsMatrix(A, |v|, |v|)
    ensures forall i, j :: 0 <= i < |v| && 0 <= j < |v| && i != j ==> A[i][j] == 0.0
  {
    seq(|v|, i requires 0 <= i < |v| => seq(|v|, j requires 0 <= j < |v| => if i == j then v[i] else 0.0))
  }

  lemma DiagonalOfDiagMatrix(v: Vector)
    ensures Diagonal(DiagMatrix(v)) == v
  {
  }

  /** `cmps.diagQ()`: project by the eigenvectors of `Q`. */
  function DiagQ(s: Cmps, num: Numerics): (r: Cmps)
    requires ValidCmps(s) && EigenShapes(num)
    ensures ValidCmps(r) && |r.Q| == |s.Q| && |r.R| == |s.R|
  {
    ProjectCmps(s, num.eigenvectors(s.Q), |s.Q|)
  }

  /** A diagonal `Q` whose largest entry is zero: the gauge `variational_compr` returns in. */
  predicate NormalDiagonal(Q: Matrix) {
    && IsSquare(Q)
    && (forall i, j :: 0 <= i < |Q| && 0 <= j < |Q| && i != j ==> Q[i][j] == 0.0)
    && (forall i :: 0 <= i < |Q| ==> Q[i][i] <= 0.0)
    && (exists i :: 0 <= i < |Q| && Q[i][i] == 0.0)
  }

  /** After refinement: shift `Q` to a zero maximum and rebuild `cmps(diag(Q), R)`. */
  function NormalizedState(q: Vector, R: Tensor3): (r: Option<Cmps>)
    ensures r.Some? <==> |q| > 0
    ensures r.Some? ==> r.value.R == R && |r.value.Q| == |q| && NormalDiagonal(r.value.Q)
    ensures r.Some? ==> Diagonal(r.value.Q) == Normalize(q).value
  {
    match Normalize(q)
    case None => None
    case Some(q') =>
      var Q := DiagMatrix(q');
      DiagonalOfDiagMatrix(q');
      assert forall i :: 0 <= i < |q| ==> Q[i][i] == Diagonal(Q)[i] == q'[i];
      Some(Cmps(Q, R))
  }

  /** The LBFGS stage preserves the shapes of the parameters it optimises. */
  ghost predicate RefineShapes(refine: (Vector, Tensor3) -> (Vector, Tensor3)) {
    forall q: Vector, R: Tensor3 {:trigger refine(q, R)} :: IsTensor3(R, |R|, |q|, |q|) ==>
      |refine(q, R).0| == |q| && IsTensor3(refine(q, R).1, |R|, |q|, |q|)
  }

  /**
   The tail of `variational_compr` from `psi`: optimise the diagonal of `Q`
   and `R` (`refine`, the LBFGS stage), then normalise `Q`.
   */
  function Refined(refine: (Vector, Tensor3) -> (Vector, Tensor3), psi: Cmps): (r: Option<Cmps>)
    requires ValidCmps(psi) && RefineShapes(refine)
    ensures r.Some? <==> |psi.Q| > 0
    ensures r.Some? ==> ValidCmps(r.value) && |r.value.Q| == |psi.Q| && |r.value.R| == |psi.R|
    ensures r.Some? ==> NormalDiagonal(r.value.Q)
    ensures r.Some? ==>
      && r.value.R == refine(Diagonal(psi.Q), psi.R).1
      && Diagonal(r.value.Q) == Normalize(refine(Diagonal(psi.Q), psi.R).0).value
  {
    var (q, R) := refine(Diagonal(psi.Q), psi.R);
    NormalizedState(q, R)
  }

  /**
   `variational_compr(mps, beta, chi, chkp_loc, init, tol)` without the
   checkpoint write. With no initial guess the isometry stage runs (with its
   default `maxiter = 50`) and its result is brought to the gauge of a
   diagonal `Q`; with one, both are skipped.
   */
  method VariationalCompr(num: Numerics, refine: (Vector, Tensor3) -> (Vector, Tensor3),
                          mps: Cmps, beta: real, chi: int, init: Option<Cmps>, tol: real)
    returns (result: Option<Cmps>)
    requires ValidCmps(mps) && EigenShapes(num) && RefineShapes(refine)
    requires InterpolateShapes(num, |mps.Q|, CutWidth(chi, |mps.Q|))
    requires init.Some? ==> ValidCmps(init.value) && |init.value.R| == |mps.R|
    ensures init.Some? ==> result == Refined(refine, init.value)
    ensures init.None? ==>
      AdaptiveMera(num, mps, beta, chi, tol, DefaultMaxIter).Some? &&
      result == Refined(refine, DiagQ(AdaptiveMera(num, mps, beta, chi, tol, DefaultMaxIter).value, num))
    ensures init.None? ==> (result.Some? <==> CutWidth(chi, |mps.Q|) > 0)
    ensures init.None? && result.Some? ==> |result.value.Q| == CutWidth(chi, |mps.Q|)
    ensures result.Some? ==> ValidCmps(result.value) && |result.value.R| == |mps.R| && NormalDiagonal(result.value.Q)
  {
    var psi: Cmps;
    if init.None? {
      var mera, basis, final, steps, converged := AdaptiveMeraUpdate(num, mps, beta, chi, tol, DefaultMaxIter);
      psi := DiagQ(mera.value, num);
    } else {
      psi := init.value;
    }
    result := Refined(refine, psi);
  }
}

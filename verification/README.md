# cMPO: tensor-network algebra and compression control, in Dafny

This project models the core of `cmpo.py`, the utility module of the cMPO method
for finite-temperature quantum many-body systems. A continuous matrix product
operator (cMPO) is a record of four tensors: `Q` (`D x D`), `L` and `R`
(`d x D x D`), and `P` (`d x d x D x D`). A continuous matrix product state
(cMPS) is a record of two tensors: `Q` (`D x D`) and `R` (`d x D x D`).

The model covers two layers.

- **Exact algebra** on these records, over Dafny `real`, with matrices as
  `seq<seq<real>>`:
  - the change of bond basis `project` (the congruence `U^T X U`, slice by slice);
  - the cMPO transpose `t`;
  - `multiply`;
  - the right action `act` and the left action `Lact` of a cMPO on a cMPS;
  - the overlap generator `density_matrix`, and `ln_ovlp`/`Fidelity` on top of it.

  `act` works on the Kronecker bond space. There, `.view(Do*Ds, Do*Ds)` puts the
  pair of bond indices `(a, c)` at `a*Ds + c` (module `Kron`). `Lact` reuses
  `act` on the transposed cMPO and then commutes the two Kronecker factors
  (`'abcd->badc'`).
- **Control logic** of the compression pipeline:
  - the column slice `v[:, -chi:]` of `energy_cut`;
  - the backtracking line search on the angle `theta` and the bounded outer loop
    of `adaptive_mera_update`;
  - the `init` skip, the `diagQ` gauge and the max-shift normalisation of `Q` in
    `variational_compr`.

Modules:

| module | file | contents |
|---|---|---|
| `Linalg` | `linalg.dfy` | sums, dot products, identity, matrix product, congruence, and their laws |
| `Kron` | `kron.dfy` | flattening `(a, c) -> a*n + c`, `view`/reshape, exchange of Kronecker factors |
| `Tensors` | `tensors.dfy` | `Cmpo`, `Cmps`, `project`, `t`, `multiply` |
| `Actions` | `actions.dfy` | `act`, `Lact`, `density_matrix`, `ln_ovlp`, `Fidelity` |
| `Optimiser` | `optimiser.dfy` | `energy_cut`, the line search, `adaptive_mera_update`, `variational_compr` |

The numerical routines are function-valued parameters, bundled in
`Optimiser.Numerics`:

- the eigenvector matrix of `eigensolver`;
- `LogTrExpm.apply`;
- the autograd gradient of the loss;
- the SVD retraction `U @ V.t()`;
- `interpolate_cut`.

The outer loop of `adaptive_mera_update` is stated against a reference,
`Optimiser.OuterLoop`, that sees one outer step as a function `step` and the
loss as a function `loss`. `Optimiser.Descend` runs the loop, and each of its
steps calls the line search, which `Optimiser.StepsAt` ties to `step`.

The LBFGS stage is one more parameter, `refine`. The model states exactly what
the code returns from their results, for every choice of these functions that
keeps the shapes listed under "## Left out". In-place updates of the caller's
tensors are not modelled; "## Left out" names the one that matters.

## Model

| member | source | states |
|---|---|---|
| `Tensors.ProjectCmpoEye` | cmpo.py:60-68 | projecting a cMPO with the identity (a trivial gauge) gives back the same `Q`, `L`, `R` and `P` |
| `Tensors.ProjectCmpoCompose` | cmpo.py:60-68 | projecting a cMPO by `U` and then by `V` is one projection by `U @ V`, on all four tensors |
| `Tensors.ProjectCmpsEye` | cmpo.py:103-109 | projecting a cMPS with the identity gives it back unchanged |
| `Tensors.ProjectCmpsCompose` | cmpo.py:103-109 | two successive cMPS projections are one projection by the product of the isometries |
| `Tensors.TransposeCmpo` | cmpo.py:70-77 | `t` keeps `Q`, exchanges `L` and `R`, and makes `P'[a][b] = P[b][a]`; the result is again a well-formed cMPO of the same dimensions |
| `Tensors.TransposeTwice` | cmpo.py:70-77 | `t` is an involution |
| `Tensors.TransposeProject` | cmpo.py:60-77 | `t` commutes with a change of bond basis |
| `Tensors.MultiplyEye` | cmpo.py:117-129 | `multiply` by the identity leaves the cMPS unchanged |
| `Tensors.MultiplyCompose` | cmpo.py:117-129 | multiplying by `W1` and then by `W2` is multiplying by `W2 @ W1` |
| `Tensors.Multiply` | cmpo.py:117-129 | `multiply(W, mps)` leaves `Q` untouched and returns a well-formed cMPS with one `R` slice per row of `W` |
| `Kron.Flat` | cmpo.py:147-151 | the flattened index of `(a, c)` lies below `m*n`, and dividing it by `n` recovers `a` as quotient and `c` as remainder |
| `Kron.Unflat` | cmpo.py:147-151 | every index below `m*n` is the flattening of some pair `(a, c)` |
| `Kron.View` | cmpo.py:147-151 | `.view(m*n, m*n)` of a contiguous `(m, n, m, n)` tensor puts its entry `[a][c][b][e]` at row `a*n + c`, column `b*n + e` |
| `Kron.Unview` | cmpo.py:170-171 | `.view(m, n, m, n)` of an `(m*n) x (m*n)` matrix reads its entry `[a][c][b][e]` from row `a*n + c`, column `b*n + e` |
| `Kron.ViewUnview` | cmpo.py:170-171 | reshaping a `(m*n) x (m*n)` matrix to four legs and back is the identity |
| `Kron.UnviewView` | cmpo.py:147-151 | reshaping a `(m, n, m, n)` tensor to a matrix and back is the identity |
| `Kron.SwapFactors` | cmpo.py:170-171 | `'abcd->badc'` turns an `(m, n, m, n)` tensor into an `(n, m, n, m)` one whose entry `[c][a][e][b]` is the old `[a][c][b][e]` |
| `Kron.SwapFactorsInvolution` | cmpo.py:170-171 | applying `'abcd->badc'` twice gives back the tensor |
| `Kron.CommuteFactors` | cmpo.py:170-171 | `'abcd->badc'` between two views moves entry `((a, c), (b, e))` to `((c, a), (e, b))` |
| `Kron.CommuteFactorsAt` | cmpo.py:170-171 | commuting the Kronecker factors moves entry `(i, j)` of the matrix to `(Commute(i), Commute(j))`, where `Commute` sends `a*n + c` to `c*m + a` |
| `Kron.CommuteInvolution` | cmpo.py:170-171 | the index map `a*n + c -> c*m + a` is its own inverse, hence a bijection of `[0, m*n)` |
| `Kron.CommuteFactorsInvolution` | cmpo.py:170-171 | commuting the Kronecker factors twice gives back the matrix |
| `Kron.CommuteFactorsUnit` | cmpo.py:170-171 | with a one-dimensional first factor, commuting the factors changes nothing |
| `Actions.GeneratorAt` | cmpo.py:147-149 | entry `((a, c), (b, e))` of `Q1 (x) I + I (x) Q2 + sum_m R1[m] (x) R2[m]` is `Q1[a][b] delta(c,e) + delta(a,b) Q2[c][e] + sum_m R1[m][a][b] R2[m][c][e]` |
| `Actions.Generator` | cmpo.py:147-149 | the sum of the three `.view(D1*D2, D1*D2)` terms is a square matrix on the product bond space `D1*D2` |
| `Actions.ActQAt` | cmpo.py:147-149 | `act(mpo, mps).Q[a*Ds+c][b*Ds+e] = mpo.Q[a][b] delta(c,e) + delta(a,b) mps.Q[c][e] + sum_m mpo.R[m][a][b] mps.R[m][c][e]` |
| `Actions.ActRAt` | cmpo.py:150-151 | `act(mpo, mps).R[m][a*Ds+c][b*Ds+e] = mpo.L[m][a][b] delta(c,e) + sum_n mpo.P[m][n][a][b] mps.R[n][c][e]` |
| `Actions.ActQEntries` | cmpo.py:147-149 | the `Q` entry formula of `act` at every pair of index pairs of the bond space `Do*Ds` |
| `Actions.ActREntries` | cmpo.py:150-151 | the `R` entry formula of `act` at every pair of index pairs of the bond space `Do*Ds`, in every one of the `d` slices |
| `Actions.Act` | cmpo.py:141-153 | `act` returns a well-formed cMPS of bond dimension `Do*Ds` with as many `R` slices as the input state |
| `Actions.ActGauge` | cmpo.py:117-153 | acting with the bond-dimension-1 cMPO whose `P` is `W` (and `Q = L = R = 0`) is `multiply(W, .)` |
| `Actions.ActIdentity` | cmpo.py:141-153 | acting with the identity cMPO returns the cMPS unchanged |
| `Actions.Lact` | cmpo.py:165-172 | `Lact` returns a well-formed cMPS of bond dimension `Ds*Do` with as many `R` slices as the input state |
| `Actions.LactQViaAct` | cmpo.py:169-170 | `Lact(mps, mpo).Q[s*Do+o][s'*Do+o'] = act(mpo.t(), mps).Q[o*Ds+s][o'*Ds+s']` |
| `Actions.LactRViaAct` | cmpo.py:169-171 | `Lact(mps, mpo).R[m][s*Do+o][s'*Do+o'] = act(mpo.t(), mps).R[m][o*Ds+s][o'*Ds+s']`, for every slice `m` |
| `Actions.LactQAt` | cmpo.py:165-172 | `Lact(mps, mpo).Q[s*Do+o][s'*Do+o'] = mps.Q[s][s'] delta(o,o') + delta(s,s') mpo.Q[o][o'] + sum_m mps.R[m][s][s'] mpo.L[m][o][o']` |
| `Actions.LactRAt` | cmpo.py:165-172 | slice `m` of `Lact(mps, mpo).R` at `(s*Do+o, s'*Do+o')` is `delta(s,s') mpo.R[m][o][o'] + sum_n mps.R[n][s][s'] mpo.P[n][m][o][o']` |
| `Actions.LactREntries` | cmpo.py:165-172 | the `R` entry formula of `Lact` over the whole bond space and all slices |
| `Actions.LactQIsDensityMatrix` | cmpo.py:165-191 | the `Q` of `Lact(mps, mpo)` is `density_matrix(mps, cmps(mpo.Q, mpo.L))` |
| `Actions.LactOfTranspose` | cmpo.py:165-172 | `Lact(mps, mpo.t())` is `act(mpo, mps)` with its Kronecker factors commuted, for `Q` and for every slice of `R` |
| `Actions.LactGauge` | cmpo.py:117-172 | the left action of the bond-dimension-1 cMPO of `W` is `multiply(W^T, .)` |
| `Actions.LactIdentity` | cmpo.py:165-172 | the left action of the identity cMPO returns the cMPS unchanged |
| `Actions.DensityMatrixAt` | cmpo.py:183-191 | entry `((a, c), (b, e))` of `density_matrix(s1, s2)` is `s1.Q[a][b] delta(c,e) + delta(a,b) s2.Q[c][e] + sum_m s1.R[m][a][b] s2.R[m][c][e]` |
| `Actions.DensityMatrix` | cmpo.py:174-191 | `density_matrix(mps1, mps2)` is a square matrix on the product bond space `D1*D2` |
| `Actions.DensityMatrixIsActQ` | cmpo.py:183-191 | `density_matrix(s1, s2)` equals the `Q` of `act(cmpo(s1.Q, L, s1.R, P), s2)` for every `L` and `P` |
| `Actions.DensityMatrixSwap` | cmpo.py:183-191 | exchanging the two states commutes the Kronecker factors of the generator |
| `Optimiser.EnergyCut` | cmpo.py:206-212 | `energy_cut` keeps, row by row, the last `chi` columns of the eigenvector matrix, following Python's `[-chi:]` slice: all columns when `chi >= D` or `chi == 0`, and exactly `chi` when `1 <= chi <= D` |
| `Optimiser.ThetaClosedForm` | cmpo.py:255-258 | trial `k` tries the angle `pi / 2**k` |
| `Optimiser.TrialGuard` | cmpo.py:255-272 | the cutoff `pi / 1.9**12` is first undercut on the 12th trial, and no earlier angle is `isclose` to 0 |
| `Optimiser.SearchFrom` | cmpo.py:255-274 | the accepted trial `(P_test, theta, k)`: the first trial `k` below 12 whose interpolated isometry beats `Fidel0`, with `theta = pi / 2**k`; every earlier trial failed to beat `Fidel0`; if no trial does, trial 12 accepts the unchanged `P` with `theta = 0` |
| `Optimiser.LineSearch` | cmpo.py:255-274 | the `while proceed == False` loop stops within 12 trials and returns exactly the reference search's result; `theta` is 0 exactly when all 12 trials were used |
| `Optimiser.Descend` | cmpo.py:230-276 | the `while step < maxiter` loop ends with exactly the basis, final `P`, step count and exit reason of the reference `Optimiser.OuterLoop` for the same step function; the `loss` it keeps is the loss of the basis, and on a tolerance exit the `last` it compared with is the loss of the previous iterate, or `9.9e9` on the first iteration |
| `Optimiser.OuterLoop` | cmpo.py:231-249 | with `P_0` the initial isometry, `P_{n+1}` one step from `P_n`, `last_0 = 9.9e9` and `last_n` the loss of `P_{n-1}`: the loop stops at the first iteration `n < maxiter` with `abs(loss(P_n) - last_n) < tol`, and then both the basis and the final isometry are `P_n`; every earlier iteration missed the tolerance; without such an iteration it runs `maxiter` steps, ends at `P_maxiter` and projects by `P_(maxiter-1)`; there is a basis exactly when `maxiter > 0` |
| `Optimiser.OuterLoopFrom` | cmpo.py:233-249 | the same loop entered at iteration `j`: it ends within `j .. maxiter`, no iteration from `j` up to the exit met the tolerance, and it ends as `Optimiser.OuterLoop` describes |
| `Optimiser.OuterStep` | cmpo.py:244-274 | the rest of one iteration after the tolerance test, the line search from `P` along the direction at `P` against the loss at `P`, returns the step function at `P`, with the shape of `P` kept |
| `Optimiser.TrajectoryShape` | cmpo.py:230-273 | every isometry the outer loop visits keeps the `D x chi` shape of the initial `energy_cut` |
| `Optimiser.StepShape` | cmpo.py:255-273 | every isometry one outer step accepts keeps the shape `D x chi` |
| `Optimiser.FidelityOf` | cmpo.py:270-271 | the objective of the line search at `P_test` is `Fidelity(mps.project(P_test), mps, beta)` |
| `Optimiser.AdaptiveLossIsFidelity` | cmpo.py:233-235 | the loss the outer loop records, with `detach` as the identity, is the same fidelity the line search compares against |
| `Optimiser.IsometryStage` | cmpo.py:230-273 | the outer loop from `energy_cut(mps, chi)` with the line search on `Fidelity(mps.project(P_test), mps, beta)` ends with isometries of shape `D x chi`, and with a basis exactly when `maxiter > 0` |
| `Optimiser.AdaptiveMera` | cmpo.py:223-276 | `adaptive_mera_update` has a result exactly when `maxiter > 0`, and then it is a well-formed cMPS of bond dimension `chi` (as `v[:, -chi:]` counts it) with as many `R` slices as `mps` |
| `Optimiser.AdaptiveMeraUpdate` | cmpo.py:223-276 | the result is `mps.project(P_n)` for the iterate `P_n` reached from `energy_cut(mps, chi)`, with `n` the iteration that met the tolerance or else `maxiter - 1`. This basis need not be the last accepted `P`: that one is `P_steps`, and the two differ unless the loop exited on the tolerance or the last line search kept `P`. Every iteration before the exit missed the tolerance, a tolerance exit comes before `maxiter`, otherwise `maxiter` steps ran, and there is no result when `maxiter <= 0` |
| `Optimiser.Max` | cmpo.py:315 | `torch.max` of a non-empty vector bounds every entry and is attained |
| `Optimiser.Normalize` | cmpo.py:313-316 | after `Q -= max(Q)`, every entry is `<= 0`, some entry is exactly 0, and all pairwise differences are preserved; an empty `Q` has no maximum |
| `Optimiser.NormalizeShiftInvariant` | cmpo.py:313-316 | adding a constant to every entry of `Q` does not change the normalised vector |
| `Optimiser.NormalizeIdempotent` | cmpo.py:313-316 | normalising an already normalised vector changes nothing |
| `Optimiser.DiagonalOfDiagMatrix` | cmpo.py:316 | `torch.diag` of the diagonal matrix built from a vector gives the vector back |
| `Optimiser.NormalizedState` | cmpo.py:313-316 | `cmps(diag(Q), R)` after the shift has an off-diagonal-zero `Q` whose diagonal is the normalised vector, with `R` kept |
| `Optimiser.DiagQ` | cmpo.py:111-115 | `diagQ` returns a well-formed cMPS with the bond dimension and the number of `R` slices of its input |
| `Optimiser.Refined` | cmpo.py:292-316 | the result keeps the `R` the LBFGS stage returns and has as diagonal of `Q` the returned `Q` vector shifted by its maximum; it is diagonal, non-positive with a zero entry, of the input's dimensions; an empty `Q` gives no result |
| `Optimiser.VariationalCompr` | cmpo.py:278-320 | with an initial guess the isometry stage is skipped and the guess goes straight into refinement and normalisation. Without one, the result is the refinement of `diagQ` of `adaptive_mera_update` with `maxiter = 50`, and has bond dimension `chi` as `v[:, -chi:]` counts it. Every result is a well-formed cMPS in the normal diagonal gauge |

## Left out

- `LogTrExpm` and `eigensolver` (cmpo.py:10-32): the eigendecomposition, `logsumexp`, `exp` and the custom backward pass are floating-point numerics. They are the parameters `logTrExpm` and `eigenvectors`. The only property assumed of `eigenvectors` is that it returns a square matrix of the size of its argument.
- `interpolate_cut`, `torch.svd` and `torch.autograd.grad` (cmpo.py:214-221, 244, 251): these are the parameters `interpolate`, `retract` and `gradient`. The only property assumed of `interpolate` is that it returns a `D x chi` matrix.
- `detach` and `requires_grad_` (cmpo.py:55-58, 98-101, 234-235): autograd bookkeeping, the identity on values.
- The LBFGS closure and its `np.isclose` convergence loop (cmpo.py:296-311): a library optimiser. It is the parameter `refine`, assumed to return parameters of the shapes it was given.
- `data_cmps`, `datasave`, `dataload` and the `chkp_loc` checkpoint write (cmpo.py:294, 318, 323-332): file I/O.
- `torch.set_num_threads` (cmpo.py:8), the `print` calls, and the `dtype`/`device`/`dim` fields: environment and I/O plumbing. The bond dimension is `|Q|`.
- Floating-point arithmetic: tensors hold exact reals. The constants `np.pi`, `1.9**12`, `9.9e9` and the `isclose` tolerances are the exact values of their decimal literals.
- Shape errors: torch raises on mismatched shapes. The model excludes them by preconditions (`ValidCmpo`, `ValidCmps`, `Compatible`) instead of modelling the exception.
- `adaptive_mera_update` with `maxiter <= 0` leaves `mps_new` unbound, so Python raises `UnboundLocalError`. This is modelled as `None`. `variational_compr` with an empty `Q` (`chi` selecting no column) makes `torch.max` raise. This is modelled as `None` as well.
- `Actions.LnOvlp` and `Actions.Fidelity` have no contract of their own. They are direct compositions of the `logTrExpm` oracle with `density_matrix`, so there is nothing to state beyond their definition. `Optimiser.FidelityOf` and `Optimiser.AdaptiveLossIsFidelity` state how the optimiser uses them.
- `Actions.Act`: its contract states only shapes. The entry formulas for `Q` and `R` are in `Actions.ActQAt`, `Actions.ActRAt`, `Actions.ActQEntries` and `Actions.ActREntries`. Keeping them there keeps every caller's proof context small.
- `Actions.Lact`: its contract states only shapes. Its entries are in `Actions.LactQViaAct`, `Actions.LactRViaAct`, `Actions.LactQAt` and `Actions.LactRAt`.
- `Optimiser.DiagQ`: it states only shapes. That the result is `project` by the eigenvector matrix is its definition. It does not state that the resulting `Q` is diagonal. That depends on the eigensolver's numerics, which are a parameter here.
- `Tensors.ProjectCmpo` states only the resulting dimensions. Its entries are the congruence `U^T X U` by definition. Its laws are `Tensors.ProjectCmpoEye` and `Tensors.ProjectCmpoCompose`.
- `Tensors.ProjectCmps` states only the resulting dimensions. Its entries are the congruence `U^T X U` by definition. Its laws are `Tensors.ProjectCmpsEye` and `Tensors.ProjectCmpsCompose`.
- `Tensors.Multiply` states that `Q` is kept and gives the shape of `R`. The entries `R1[m] = sum_n W[m][n] R[n]` are its definition. Its laws are `Tensors.MultiplyEye`, `Tensors.MultiplyCompose` and `Actions.ActGauge`.
- `Actions.Generator` states only the shape. Its entries are in `Actions.GeneratorAt`.
- `Actions.DensityMatrix` states only the shape. Its entries are in `Actions.DensityMatrixAt`.
- `Optimiser.IsometryStage` states shapes and when a basis exists. Which iterates it ends with is stated by `Optimiser.AdaptiveMeraUpdate`, whose outcome equals it.
- `Optimiser.AdaptiveMera` states shapes and when a result exists. The isometry it projects by is stated by `Optimiser.AdaptiveMeraUpdate`, whose result equals it.
- `Optimiser.VariationalCompr`: with an initial guess, `torch.nn.Parameter(psi.R)` shares storage with the caller's `init.R`, and LBFGS updates it in place. So the caller's `init.R` is overwritten by the refined `R`, and the returned cMPS aliases it. The model treats `init` as an immutable value and states only the returned cMPS.

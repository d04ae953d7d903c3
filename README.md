# eom, the structural core of an ODE integrator library

`eom` integrates ordinary differential equations: chaotic test models such as
Lorenz-63, Lorenz-96, Rössler and the GOY shell model, explicit one-step
schemes (Euler, RK4), an exact propagator for diagonal linear systems, stepper
adaptors (`NStep`, `TimeSeries`) and a finite-difference Jacobian used for
Lyapunov analysis. This project models the exact, non-numerical part of that
core in Dafny and proves it over exact arithmetic.

- Scalars are `real`. Complex numbers are `Complex.Complex(re, im)`, with
  conjugate, sum, product and real scaling.
- The scalar exponential and the L2 norm are passed in as function values. A
  stepper's single step is a function value inside `Adaptor.Stepper`.
- The in-place kernels (`rhs`, `nlin`, `iterate`, `op`) are methods on a Dafny
  `array`. Each is proved equal to an out-of-place function of the original
  state (`RhsOf`, `NlinOf`, `SweepOf`, `Flow`, `OpOf`). The properties the
  source promises are then proved about those functions.
- The GOY shell `nlin` sweeps the buffer left to right. Five rotating locals
  carry the conjugates of the original neighbours i-2 .. i+2, and `v[i+3]` is
  read one step before it is overwritten. `ShellSweep.Sweep` proves that the
  loop computes the out-of-place stencil over the original values.
- Every revision of a model is its own module: `src/ode/*` becomes
  `GoyShell`, `Lorenz96`, `Lorenz63` and `Roessler`. `src/model/*` becomes
  `GoyShellModel`, `Lorenz96Model`, `Lorenz63Model` and `RoesslerModel`. The
  free-standing files become `Lorenz96Rc` and `Lorenz63Fn`. The older
  Lorenz-96, Lorenz-63 and Rössler revisions keep their own loops, and they
  are proved against the newest revision's specification function. The two
  GOY revisions run the same sweep loop, so both call `ShellSweep.Sweep`, and
  the older `diag` reuses `GoyShell.Diag`.

Where the code and its documentation differ, the model follows the code:

- The GOY kernel reads `v[0]`, `v[1]` and `v[2]` before it looks at `size`.
  It therefore demands a buffer of at least three entries, not three shells.
  Below three shells it reads entries that are not shells
  (`ShellSweep.TwoShellsReadEntryTwo`).
- The forcing index must lie inside the buffer, not inside the shells.
- The Lorenz-96 stencil uses the buffer's length, not the model's `n`.

## Model

| member | source | states |
|---|---|---|
| ShellSweep.Sweep | src/ode/goy_shell.rs:83-104 | The in-place sweep with rotating locals and the `v[i+3]` look-ahead ends with every shell holding the rule applied to the conjugates of the ORIGINAL neighbours i-2 .. i+2 (zero outside the window), and every later entry unchanged. |
| ShellSweep.SameWindow | src/ode/goy_shell.rs:99-103 | An entry at or past the window's bound is never seen: two states equal below the bound give the same conjugated neighbour. |
| ShellSweep.ShellsOnly | src/ode/goy_shell.rs:93-104 | With at least three shells, a shell's new value depends only on the shells, never on the entries past them. |
| ShellSweep.RestWindow | src/ode/goy_shell.rs:83-104 | On the zero state the rule is fed zeros only. |
| ShellSweep.TwoShellsReadEntryTwo | src/ode/goy_shell.rs:85-87 | With size 2 the up-front reads make entry 2, which is not a shell, the second upper neighbour of shell 0. |
| GoyShell.Pow2Squared | src/ode/goy_shell.rs:110-114 | (2^n)^2 = 4^n, the square that `k(n) * k(n)` takes. |
| GoyShell.DampingRate | src/ode/goy_shell.rs:51-53 | k(n) is imaginary with magnitude k0 2^n, so nu k(n) k(n) is the real number -nu k0^2 4^n, and it is nonpositive when nu >= 0. |
| GoyShell.ImaginarySquare | src/ode/goy_shell.rs:110-114 | nu (i k0 q)(i k0 q) is the real number -nu k0^2 q^2, nonpositive when nu >= 0. |
| GoyShell.Default | src/ode/goy_shell.rs:56-67 | Reference parameters size 27, nu 1e-9, e 0.5, k0 0.0625, f 5e-3, f_idx 4; they satisfy 3 <= size, f_idx < size, nu >= 0, 0 <= e <= 1, k0 > 0. |
| GoyShell.ModelSize | src/ode/goy_shell.rs:73-75 | The model size is the number of shells. |
| GoyShell.Diag | src/ode/goy_shell.rs:110-114 | `diag` has exactly `size` entries, entry n is the real number -nu k0^2 4^n, and all entries are nonpositive when nu >= 0. |
| GoyShell.DampingRates | src/ode/goy_shell.rs:110-114 | A sequence whose entry n is nu k(n) k(n) has every entry equal to the real -nu k0^2 4^n, nonpositive when nu >= 0. |
| GoyShell.CouplingOfRest | src/ode/goy_shell.rs:94 | The GOY coupling of four zero neighbours is zero. |
| GoyShell.Nlin | src/ode/goy_shell.rs:79-108 | After `nlin`, v is the GOY stencil with a = 1, b = -e, c = -(1-e) over the original conjugates, with f added to entry f_idx; it needs a buffer of at least 3 entries holding the shells and f_idx. |
| GoyShell.ZeroPadded | src/ode/goy_shell.rs:93-104 | With at least three shells, shell i's new value is the stencil with zeros outside [0, size), plus f when i is f_idx. Entries past size do not influence any shell, and entries past size other than f_idx are unchanged. |
| GoyShell.ForcingOnlyAtIndex | src/ode/goy_shell.rs:106 | The forcing adds exactly f to the real part of entry f_idx; every other entry, and every imaginary part, is what the kernel with f = 0 gives. |
| GoyShell.RestIsForcedOnly | src/ode/goy_shell.rs:79-108 | The zero state is driven by the forcing only: shell f_idx becomes f and every other shell stays zero. |
| GoyShellModel.Default | src/model/goy_shell.rs:25-36 | The older revision's reference parameters are those of the newer one. |
| GoyShellModel.Diag | src/model/goy_shell.rs:72-76 | `diag` has `size` entries nu k(n) k(n) = -nu k0^2 4^n, all real, nonpositive when nu >= 0. |
| GoyShellModel.Nlin | src/model/goy_shell.rs:44-70 | The same sweep, then `v[f_idx] = v[f_idx] + f`, gives the same out-of-place stencil plus forcing as the newer revision. |
| Lorenz96.Default | src/ode/lorenz96.rs:13-17 | Forcing 8 on 40 sites, a ring size the stencil accepts. |
| Lorenz96.ModelSize | src/ode/lorenz96.rs:24-26 | The model size is n. |
| Lorenz96.Wrap | src/ode/lorenz96.rs:38-40 | A neighbour index within one turn of the ring lands in [0, n). |
| Lorenz96.WrapIsModulo | src/ode/lorenz96.rs:38-40 | Within one turn of the ring, the cyclic index is the mathematical j mod n. |
| Lorenz96.UnsignedNeighbours | src/ode/lorenz96.rs:38-40 | For n >= 2 the unsigned `(i + 1) % n`, `(i + n - 1) % n` and `(i + n - 2) % n` are the cyclic neighbours i+1, i-1 and i-2. |
| Lorenz96.NeighbourIndices | src/ode/lorenz96.rs:38-40 | For n >= 2, p1, m1 and m2 lie in [0, n) and equal i+1, i-1 and i-2 modulo n. |
| Lorenz96.SiteByModulo | src/ode/lorenz96.rs:38-41 | The value written with the `%` indices is the Lorenz-96 tendency of site i over the snapshot. |
| Lorenz96.RhsOf | src/ode/lorenz96.rs:35-43 | The out-of-place right-hand side has the length of the state. |
| Lorenz96.Rhs | src/ode/lorenz96.rs:32-44 | After `rhs`, every entry is the cyclic stencil (x_{i+1} - x_{i-2}) x_{i-1} - x_i + F over the snapshot of the original state; the length is kept and n = 1, where `i + n - 2` underflows, is excluded. |
| Lorenz96.RhsCommutesWithRotation | src/ode/lorenz96.rs:37-42 | Turning the ring by one site and then evaluating `rhs` equals evaluating and then turning: no site is special. |
| Lorenz96.SiteRotated | src/ode/lorenz96.rs:41 | The tendency of site i of the turned ring is the tendency of site i+1 of the original ring. |
| Lorenz96.UniformForcingIsEquilibrium | src/ode/lorenz96.rs:41 | A uniform state equal to the forcing f maps to zero at every site. |
| Lorenz96Model.Default | src/model/lorenz96.rs:12-16 | The default forcing is 8, as in the newer revision. |
| Lorenz96Model.Rhs | src/model/lorenz96.rs:28-38 | After `rhs` on a borrowed buffer with a `to_owned` snapshot, v is the cyclic stencil over the original state. |
| Lorenz96Rc.Default | src/lorenz96.rs:12-16 | The default forcing is 8, as in the newer revisions. |
| Lorenz96Rc.Rhs | src/lorenz96.rs:26-36 | The returned array has the input's length, and every entry is the cyclic stencil over the cloned original. |
| Lorenz63.Default | src/ode/lorenz63.rs:15-23 | p = 10, r = 28, b = 8/3; all positive, with r > 1. |
| Lorenz63.ModelSize | src/ode/lorenz63.rs:35-37 | The model size is 3. |
| Lorenz63.RhsOf | src/ode/lorenz63.rs:43-53 | The right-hand side keeps the length and leaves every entry past index 2 as it was. |
| Lorenz63.NlinOf | src/ode/lorenz63.rs:57-67 | The nonlinear part keeps the length and leaves every entry past index 2 as it was. |
| Lorenz63.Diag | src/ode/lorenz63.rs:71-73 | The diagonal has model-size (3) entries. |
| Lorenz63.Rhs | src/ode/lorenz63.rs:43-53 | After `rhs`, v[0..3] holds p(y-x), x(r-z)-y, xy-bz of the ORIGINAL x, y, z, and the rest is unchanged. |
| Lorenz63.Nlin | src/ode/lorenz63.rs:57-67 | After `nlin`, v holds the nonlinear part of the original coordinates, and the rest is unchanged. |
| Lorenz63.SplitConsistency | src/ode/lorenz63.rs:43-73 | For j < 3, nlin(v)[j] + diag[j] v[j] = rhs(v)[j]: the semi-implicit split is exact. |
| Lorenz63.OriginIsFixed | src/ode/lorenz63.rs:49-51 | The origin maps to the origin, under `rhs` and under `nlin`. |
| Lorenz63.ProductZero | src/ode/lorenz63.rs:49 | A zero product with a nonzero factor p has a zero other factor. |
| Lorenz63.EquilibriumIff | src/ode/lorenz63.rs:49-51 | For p != 0, rhs vanishes exactly when y = x, x(r-1-z) = 0 and x^2 = bz, in both directions. |
| Lorenz63Model.Default | src/model/lorenz63.rs:14-22 | The same classical parameters as the newer revision. |
| Lorenz63Model.Diagonal | src/model/lorenz63.rs:59-61 | `diagonal` has 3 entries, and with `nlin` it splits `rhs` exactly, for every state. |
| Lorenz63Model.Rhs | src/model/lorenz63.rs:33-41 | After `rhs`, v is the Lorenz right-hand side of the original coordinates. |
| Lorenz63Model.Nlin | src/model/lorenz63.rs:47-55 | After `nlin`, v is the nonlinear part of the original coordinates. |
| Lorenz63Fn.DefaultParameter | src/lorenz63.rs:12-18 | The parameter record holds the classical p, r and b. |
| Lorenz63Fn.F | src/lorenz63.rs:21-29 | `f` returns the Lorenz right-hand side of the pre-update x, y, z, with every other entry kept; it needs at least 3 entries. |
| Roessler.Default | src/ode/roessler.rs:14-22 | a = 0.2, b = 0.2, c = 5.7; a > 0 and c^2 > 4ab, so there are two equilibria. |
| Roessler.ModelSize | src/ode/roessler.rs:27-29 | The model size is 3. |
| Roessler.RhsOf | src/ode/roessler.rs:39-50 | The right-hand side keeps the length and leaves every entry past index 2 as it was. |
| Roessler.Rhs | src/ode/roessler.rs:39-50 | After `rhs`, v[0..3] holds -y-z, x+ay, b+xz-cz of the original coordinates, and the rest is unchanged. |
| Roessler.OriginImage | src/ode/roessler.rs:43-48 | The origin maps to (0, 0, b). |
| Roessler.EquilibriumIff | src/ode/roessler.rs:43-48 | rhs vanishes exactly when y = -z, x = az and az^2 - cz + b = 0, in both directions. |
| RoesslerModel.Default | src/model/roessler.rs:14-22 | The same classical parameters as the newer revision. |
| RoesslerModel.ModelSize | src/model/roessler.rs:24-28 | The model size is 3. |
| RoesslerModel.Rhs | src/model/roessler.rs:42-50 | After `rhs`, v is the Rössler right-hand side of the original coordinates. |
| Adaptor.Innermost | src/adaptor.rs:60-63 | Under every tower of adaptors there is a scheme. |
| Adaptor.NStepOf | src/adaptor.rs:65-67 | `nstep(teo, n)` performs n times as many innermost steps as teo, on the same innermost scheme. |
| Adaptor.ModelSize | src/adaptor.rs:73-75 | `model_size` delegates down to the innermost scheme's size. |
| Adaptor.GetDt | src/adaptor.rs:83-85 | `get_dt` multiplies by n at every level, so it is the innermost dt times the number of innermost steps per iterate. |
| Adaptor.SetDt | src/adaptor.rs:87-89 | `set_dt` keeps the tower's shape (`SameShape`): the same number of levels, the same n at every level, and the same size and scheme at the bottom. |
| Adaptor.SetDtInnermost | src/adaptor.rs:87-89 | After `set_dt(dt)` the innermost scheme steps by dt divided by the number of innermost steps per iterate. |
| Adaptor.SetDtGetDt | src/adaptor.rs:83-89 | `get_dt` after `set_dt(dt)` returns dt when no adaptor has n = 0. |
| Adaptor.IterAdd | src/adaptor.rs:113-115 | Iterating a times and then b times is iterating a + b times. |
| Adaptor.FlowUnfolds | src/adaptor.rs:107-117 | One iterate of a tower is Steps(s) steps of its innermost scheme. |
| Adaptor.IterUnfolds | src/adaptor.rs:107-117 | k iterates of a tower are k Steps(s) steps of its innermost scheme. |
| Adaptor.NestedNStep | src/adaptor.rs:113-115 | `nstep(nstep(t, a), b)` does what `nstep(t, a b)` does. |
| Adaptor.ZeroStepsIsIdentity | src/adaptor.rs:113-116 | `nstep(t, 0)` leaves the state as it is. |
| Adaptor.FlowKeepsLength | src/adaptor.rs:107-117 | A step of a tower of in-place schemes keeps the state's length. |
| Adaptor.IterKeepsLength | src/adaptor.rs:107-117 | Any number of steps keep the state's length. |
| Adaptor.Evolve | src/adaptor.rs:107-117 | The in-place `iterate`, calling the inner stepper n times on the same buffer, leaves the buffer holding the flow of its old contents. |
| Adaptor.TimeSeries.constructor | src/adaptor.rs:16-26 | `time_series` takes ownership of the initial state and has taken no step. |
| Adaptor.TimeSeries.Iterate | src/adaptor.rs:34-36 | `iterate` advances the owned state by one step, in place. |
| Adaptor.TimeSeries.Next | src/adaptor.rs:46-49 | `next` never returns None; the item is a fresh copy of the state, which is x0 advanced `count` times. |
| Adaptor.TwoItems | src/adaptor.rs:46-49 | The first two items are x0 advanced once and twice, and drawing the second leaves the first as it was, since items are copies. |
| Diagonal.New | src/diag.rs:21-29 | `new` stores exactly one factor exp(d_i dt) per diagonal entry, and the step dt. |
| Diagonal.ApplyOf | src/diag.rs:36-41 | The propagated state has the length of the input. |
| Diagonal.Iterate | src/diag.rs:36-41 | `iterate` multiplies entry i by factor i for i < min(len x, len diag) and leaves the rest, as `zip` stops at the shorter. |
| Diagonal.GetDtOfNew | src/diag.rs:42-44 | `get_dt` returns the dt given at construction. |
| Diagonal.BeyondDiagonalUnchanged | src/diag.rs:37 | Entries of x past the diagonal's length are left unchanged. |
| Diagonal.ZeroStaysZero | src/diag.rs:36-39 | The zero state is mapped to the zero state. |
| Diagonal.TwoSteps | src/diag.rs:36-41 | Two iterates multiply each covered entry by the square of its factor. |
| Diagonal.StepsCompose | src/diag.rs:21-41 | Given exp(z + w) = exp(z) exp(w), a step built for s followed by one built for t is the step built for s + t: the propagator is exact. |
| Explicit.Plus | src/explicit.rs:25 | The entrywise sum keeps the length. |
| Explicit.Times | src/explicit.rs:25 | A scalar multiple keeps the length. |
| Explicit.Euler | src/explicit.rs:4-9 | `euler` keeps the state's shape. |
| Explicit.Rk4 | src/explicit.rs:11-26 | `rk4` keeps the state's shape when u does. |
| Explicit.Rk4At | src/explicit.rs:14-25 | Entry i of an RK4 step is x_i + dt/6 (k1_i + 2 (k2_i + k3_i) + k4_i), with the stages taken at x, x + dt/2 k1, x + dt/2 k2 and x + dt k3. |
| Explicit.ZeroStep | src/explicit.rs:4-26 | With dt = 0 both `euler` and `rk4` return x. |
| Explicit.RestPoint | src/explicit.rs:4-26 | Where u(x) = 0 both `euler` and `rk4` return x. |
| Explicit.ConstantField | src/explicit.rs:4-26 | For a constant u = c both schemes return x + dt c. |
| Explicit.EulerLinear | src/explicit.rs:4-9 | On u(v) = lam v, `euler` multiplies x by 1 + lam dt. |
| Explicit.Rk4Linear | src/explicit.rs:11-26 | On u(v) = lam v, `rk4` multiplies x by 1 + h + h^2/2 + h^3/6 + h^4/24 with h = lam dt, the degree-4 Taylor polynomial of exp(h). |
| Explicit.StagesAreMultiples | src/explicit.rs:14-25 | On u(v) = lam v, when the stage multipliers follow RK4's scalar recursion, the step is the Taylor polynomial times x. |
| Explicit.NextStage | src/explicit.rs:17-18 | On u(v) = lam v, a stage taken at x + c (a x) is the multiple lam (c a + 1) x. |
| Explicit.GrowthFactor | src/explicit.rs:14-25 | RK4's scalar stage recursion on x' = lam x combines to the Taylor polynomial of exp(lam dt). |
| Explicit.StageStep | src/explicit.rs:17-24 | One stage of the scalar recursion: dt times lam b is (lam dt) b. |
| Explicit.WeightedSum | src/explicit.rs:25 | dt/6 times the weighted stage sum k1 + 2(k2 + k3) + k4 is the same weighted sum of the dt-multiples, over 6. |
| Explicit.TaylorOfStages | src/explicit.rs:17-25 | The stage recursion in h = lam dt sums to 1 + h + h^2/2 + h^3/6 + h^4/24. |
| Explicit.Rk4OfStages | src/explicit.rs:14-25 | One RK4 step is x + dt/6 (k1 + 2(k2 + k3) + k4) for the stages k1 = u(x), k2 = u(x + dt/2 k1), k3 = u(x + dt/2 k2), k4 = u(x + dt k3), all of x's length. |
| Lyapunov.NewJacobian | src/lyapunov.rs:21-38 | `jacobian` keeps x, stepper and alpha, and caches fx as one step of a copy of x. |
| Lyapunov.ScaleOf | src/lyapunov.rs:48-49 | For alpha > 0 the scale n satisfies 0 < n <= 1 and n max(\|dx\|, alpha) = alpha, and n = 1 when \|dx\| <= alpha. |
| Lyapunov.Perturbed | src/lyapunov.rs:50-52 | The perturbed point has the direction's length. |
| Lyapunov.Quotient | src/lyapunov.rs:54-56 | The divided difference has the length of its operands. |
| Lyapunov.OpOf | src/lyapunov.rs:47-58 | The operator's result has the direction's length. |
| Lyapunov.Op | src/lyapunov.rs:47-58 | `op` overwrites dx with x + n dx, steps that buffer in place, overwrites it with (f(x + n dx) - fx) / n, and returns the same buffer. |
| Lyapunov.Perturb | src/lyapunov.rs:50-52 | The first element loop of `op` leaves dx holding x + n dx, entry by entry. |
| Lyapunov.Divide | src/lyapunov.rs:54-56 | The second element loop of `op` leaves the buffer holding (y - fx) / n, entry by entry. |
| Lyapunov.OpOfUnfolds | src/lyapunov.rs:48-49 | The scale alpha / max(\|dx\|, alpha) that `op` computes is nonzero, and with it the operator is the divided difference of the stepped perturbation. |
| Lyapunov.ZeroDirection | src/lyapunov.rs:48-56 | For an operator built by `jacobian`, the zero direction maps to zero. |
| Lyapunov.LinearFlow | src/lyapunov.rs:48-56 | For a stepper that is the linear map v -> c v, the operator is exactly that map, whatever the scale of dx. |
| Lyapunov.Additive | tests/lyapunov.rs:11-22 | For such a stepper the operator is additive: J v + J w = J (v + w), the linearity the test means to check. |
| Lyapunov.TimesDistributes | src/lyapunov.rs:52-56 | c v + c w = c (v + w) entrywise. |
| Lyapunov.TestAsWrittenFails | tests/lyapunov.rs:19-21 | The comparison as written, J v + J w against J (w + w), fails already for the identity stepper with v = [1], w = [0]. |
| Lyapunov.QuotientOfLinear | src/lyapunov.rs:54-56 | The divided difference of v -> c v at x in direction d is c d. |
| Lyapunov.QuotientEntry | src/lyapunov.rs:56 | Entry k of that divided difference is c d_k. |
| Lyapunov.DividedDifference | src/lyapunov.rs:56 | ((c (x + d n)) - c x) / n = c d for n != 0. |
| Lyapunov.IdentityStepper | src/lyapunov.rs:50-56 | With a stepper that does nothing, `op` returns dx unchanged. |

## Left out

- Floating-point rounding, convergence order, Lyapunov exponents and attractor bounds: the model computes over exact reals.
- `exp`, `norm_l2`, `sqrt` and `PI` are not modelled. The exponential and the norm are function parameters; the exponential law is a hypothesis of `Diagonal.StepsCompose`.
- The FFT-based models (src/pde), QR factorisation and the CLV and Lyapunov drivers are not part of this model: they are foreign linear-algebra and FFT calls.
- src/semi_implicit.rs is not part of this model: its `iterate` is a stub that returns x.
- Binaries, examples, benches, plotting and the other tests are not part of this model: they do I/O only.
- `new_buffer` and the scratch `Buffer` of `NStep` and `TimeSeries` are left out. Every modelled stepper works without one, so the buffer carries no state.
- The `new` constructors of Lorenz-96, Lorenz-63 and Rössler are left out: each only stores its arguments.
- GoyShell.DampingRate: `2.pow(n as u32)` is an `i32` power in the source and overflows for n >= 31. The model uses the exact 2^n, which agrees with the source for the 27 shells of the reference run.
- Adaptor.SetDt: requires every adaptor in the tower to have n > 0. With n = 0 the source divides by zero and stores an infinite or NaN dt, which has no counterpart over the reals.
- Adaptor.SetDt: modelled as a function returning the updated stepper. The source mutates the inner stepper through `&mut self`, but no other reference to it exists, so the two agree.
- Lyapunov.Op: requires alpha > 0. With alpha = 0 the scale n is 0 for every nonzero direction (and 0/0 for the zero direction), and the source then divides by n. A negative alpha is accepted by the source (a zero direction then divides by zero, a nonzero one flips the sign of the scale) but is excluded by the model.
- Lyapunov.NewJacobian: the Jacobian is modelled on real scalars only, while the source is generic over real and complex scalars. The adaptors are generic over the state's element type, as in the source.
- Lyapunov.LinearFlow: the test asserts only approximate linearity of the floating-point operator for RK4 on Lorenz-63. The model proves exact linearity for steppers that are linear maps, and nothing about a general stepper.
- Adaptor.TimeSeries.Next: an item is an array copy. Lazy iterator adaptors on top of it (`take`, `skip`) are not modelled.

## Findings

| source | as written | input that shows it | evidently intended | confidence | as-written member | corrected member |
|---|---|---|---|---|---|---|
| tests/lyapunov.rs:19-21 | the linearity test compares J v + J w with J (w + w) (the line computing J v + J w also lacks its `;`, and `w` is used after being moved) | identity stepper, v = [1], w = [0]: J v + J w = [1], J (w + w) = [0] | compare with J (v + w) | not executed | Lyapunov.TestAsWrittenFails | Lyapunov.Additive |

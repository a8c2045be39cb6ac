# Raman solver of oopt-raman, modelled in Dafny

This project models `RamanSolver`, the class in `raman/raman.py` that computes
how stimulated Raman scattering changes the power of every frequency slice
along an optical fiber. The slices are the WDM carriers plus any Raman pumps.

The solver object holds four inputs:

- the fiber description: length, an attenuation table and a Raman-efficiency table;
- the spectral information (the carriers);
- the Raman pump information;
- the solver parameters: z resolution, tolerance and verbosity.

It also holds a cached Raman profile. The profile getter sets up the
problem and hands it to a collocation boundary-value solver. That solver
integrates the coupled Raman rate equations. Each slice propagates forward
or backward and has its launch power imposed at its own end of the fiber.
The getter caches the outcome. Every setter except the pump setter clears
the cache.

The model has six parts:

- `types.dfy` (`RamanTypes`): the input records, the outcomes, the
  `Error` cases and the `Library` of routines the solver calls.
- `coefficients.dfy` (`Coefficients`): the attenuation vector, the
  frequency-difference matrix and the Raman coupling matrix.
  - A coefficient table with two or more samples goes through the
    interpolant. The interpolant refuses lookups outside the sampled range.
  - A table with one sample is broadcast as a scalar.
- `grid.dfy` (`Grid`): the z mesh, both as the source writes it and as it
  was meant to be (see Findings).
- `boundary.dfy` (`Boundary`): the boundary residual, the exponential-decay
  initial guess and the normalisation of power into squared field gain.
- `ode.dfy` (`RamanOde`): the right-hand side of the rate equations.
  - For slice `i` at sample `k` it is
    `dir_i * (-alpha_i + sum_{j>i} cr[i][j] P_j - sum_{j<i} (f_i/f_j) cr[i][j] P_j) * P_i`.
  - The model proves the laws of this right-hand side. The main one is the
    photon-number balance between the slices.
- `solver.dfy` (`Solver`):
  - the specification of one solve: `SetupCoefficients`, `SetupProblem`
    (on the source's mesh) and `Solve`;
  - `SetupProblemOnFiberGrid`, the same problem on the corrected mesh;
  - the `RamanSolver` class, with its fields, setters and the two caching
    getters;
  - two scenarios showing the stale-cache defect of the pump setter.

The routines the solver delegates to are fields of `RamanTypes.Library`.
These are the construction of the power spectrum, the interpolant, the
exponential and the boundary-value solver. The general lemmas hold for
every choice of them that meets their stated hypotheses, such as an
exponential with `exp(0) = 1` or a solver output that meets the boundary
conditions. The pump scenarios are stated for one stub library,
`Solver.ExampleLibrary`.

The ghost predicate `RamanSolver.Coherent()` states the cache invariant: a
cached profile is the solve of the current inputs. Each setter and getter
is specified by how it changes the fields and whether it keeps that
invariant.

## Model

| member | source | states |
|---|---|---|
| Solver.RamanSolver.constructor | raman/raman.py:22-37 | the fiber is the given one; parameters, spectrum, pumps and both caches start empty; the cache invariant holds |
| Solver.RamanSolver.SetFiberInformation | raman/raman.py:43-46 | replaces the fiber and clears the profile cache, nothing else changes, so the cache invariant holds afterwards |
| Solver.RamanSolver.SetSpectralInformation | raman/raman.py:52-60 | replaces the spectral information and clears the profile cache, nothing else changes, the cache invariant holds afterwards |
| Solver.RamanSolver.SetRamanPumpInformation | raman/raman.py:66-68 | replaces the pump information and keeps the cached profile; the cache invariant is kept when the pumps are unchanged |
| Solver.RamanSolver.SetRamanPumpInformationInvalidating | raman/raman.py:66-68 | the corrected pump setter: replaces the pumps, clears the profile cache, the cache invariant holds afterwards |
| Solver.RamanSolver.SetSolverParams | raman/raman.py:74-81 | replaces the solver parameters and clears the profile cache, nothing else changes, the cache invariant holds afterwards |
| Solver.RamanSolver.RamanBvpSolution | raman/raman.py:178-238 | a cached profile is returned unchanged; otherwise the result is the solve of the current inputs, cached exactly when it succeeds; under the cache invariant the result is always the solve of the current inputs and the invariant is kept |
| Solver.RamanSolver.RamanAseSolution | raman/raman.py:83-145 | the ASE cache is never written; a set-up error is returned first; otherwise the profile getter runs (and fills the profile cache as it does) and the result is the empty ASE cache or the profile's error; keeps the cache invariant |
| Solver.SetupCoefficients | raman/raman.py:187-214 | missing fiber and missing parameters are reported in that order; succeeds exactly when the spectrum is well shaped and both table lookups succeed; the result holds the spectrum, the attenuation vector and the coupling matrix of one slice each |
| Solver.SetupProblem | raman/raman.py:186-224 | propagates set-up errors; with them absent succeeds exactly when the resolution is positive and below `length + 1`, that is when `arange(0, length + 1, dz)` has the two points the solver needs; the problem carries that mesh (the multiples `k * dz`, the last one less than one step below `length + 1`), the decay guess on it, and the spectrum, coefficients, tolerance and verbosity |
| Solver.SetupProblemOnFiberGrid | raman/raman.py:186-224 | the corrected problem: as `SetupProblem`, but succeeds exactly for a positive length and resolution, and its mesh runs from 0 to exactly the fiber length in steps of at most the resolution |
| Solver.ProblemsAgreeOnWholeSteps | raman/raman.py:217-221 | when the fiber length is a whole number of steps of at least 1 m, the source's problem equals the corrected one |
| Solver.Solve | raman/raman.py:186-236 | propagates problem errors; succeeds exactly when the solver returns one row per slice and no launch power is zero; the profile keeps the solver's mesh, power and convergence flag, the spectrum's frequencies, and a squared gain that times the launch power gives back the power |
| Solver.GuessHonoursLaunchPower | raman/raman.py:219-221 | with `exp(0) = 1` the guess handed to the solver meets the boundary conditions exactly |
| Solver.ConvergedGainIsOneAtLaunch | raman/raman.py:224-227 | when the solver's power meets the boundary conditions, the stored squared gain is one at each slice's launch end |
| Solver.ExampleSolve | raman/raman.py:186-236 | the example fiber's profile starts at 1 W without pumps and at 2 W with pumps |
| Solver.StalePumpRead | raman/raman.py:66-68 | with fiber, carriers and parameters set, a solver read before the pumps were set still returns the pump-less profile (1 W), while a fresh solver with the same inputs returns 2 W |
| Solver.FreshPumpRead | raman/raman.py:66-68 | with the invalidating setter both solvers return the profile for the pumps (2 W) |
| Coefficients.AttenuationVector | raman/raman.py:203-207 | an empty table is an error; one sample is broadcast to every slice; with two or more samples it succeeds exactly when both columns have equal length and every slice frequency is in range, and then holds the interpolant at each slice |
| Coefficients.FrequencyDifference | raman/raman.py:209 | a square matrix of non-negative differences, symmetric and zero on the diagonal |
| Coefficients.CouplingMatrix | raman/raman.py:210-214 | as the attenuation lookup, entry by entry on the offset matrix: one sample broadcast, two or more need equal columns and every offset in range; an empty table is accepted exactly for at most one slice, with the unread diagonal entry 0, and is an error otherwise |
| Coefficients.CouplingSymmetric | raman/raman.py:209-214 | the looked-up coupling is symmetric in the two slices |
| Coefficients.CouplingNeedsZeroOffset | raman/raman.py:209-212 | a sampled table that does not cover offset 0 always fails, because the diagonal holds zero offsets |
| Coefficients.ScalarAttenuationIgnoresFrequencies | raman/raman.py:206-207 | a one-sample attenuation table gives the same vector for any slice frequencies and any interpolant |
| Coefficients.ScalarCouplingIgnoresOffsets | raman/raman.py:213-214 | a one-sample Raman table gives the same matrix for any offsets and any interpolant |
| Grid.ArangeCount | raman/raman.py:217 | the least count of steps that reaches the stop value |
| Grid.ArangeGrid | raman/raman.py:217 | the source's mesh: the multiples of the resolution below `length + 1`, reaching past it with one more step |
| Grid.ArangeGridSpan | raman/raman.py:217 | the source's mesh has at least two points exactly when the resolution is below `length + 1`; its last point is less than one step below `length + 1` |
| Grid.ArangeGridReversedIsDistanceToEnd | raman/raman.py:269 | on the evenly spaced mesh of line 217, the reversed mesh value `z[m-1-k]` is the distance from `z[k]` to the mesh's last point |
| Grid.ArangeGridStopsShort | raman/raman.py:217 | 1500 m on a 1000 m resolution gives the mesh `[0, 1000]`, which ends 500 m before the fiber end |
| Grid.ArangeGridOvershoots | raman/raman.py:217 | 10 m on a 0.4 m resolution gives 28 points ending at 10.8 m, past the fiber end |
| Grid.FiberGrid | raman/raman.py:217 | the intended mesh: at least two points, from 0 to exactly the length, strictly increasing in steps of at most the resolution |
| Grid.GridsAgreeOnWholeSteps | raman/raman.py:217 | when the length is a whole number of steps of at least 1 m, the source's mesh is exactly the intended one |
| Boundary.ResidualsRaman | raman/raman.py:240-250 | computed slice by slice, the residual is launch power minus the solver's value at that slice's launch end (start for forward, end for backward) |
| Boundary.ResidualZeroIff | raman/raman.py:240-250 | the residual vanishes exactly when every slice has its launch power at its own launch end |
| Boundary.InitialGuessRaman | raman/raman.py:252-271 | computed row by row, one row per slice and one column per mesh point: forward rows are decayed over the mesh value `z[k]`, backward rows over the reversed mesh value `z[m-1-k]` (the distance to the mesh's last point when the mesh is evenly spaced) |
| Boundary.InitialGuessEntry | raman/raman.py:264-269 | each entry is the launch power decayed over `z[k]` for a forward slice and over the reversed mesh value `z[m-1-k]` for a backward one |
| Boundary.InitialGuessShape | raman/raman.py:264 | the guess is a slices-by-mesh-points matrix |
| Boundary.InitialGuessAtLaunch | raman/raman.py:264-269 | with `exp(0) = 1` a forward row starts, and a backward row ends, at the launch power |
| Boundary.InitialGuessMeetsBoundary | raman/raman.py:240-271 | with `exp(0) = 1` the guess makes the boundary residual vanish |
| Boundary.BackwardGuessMirrorsForward | raman/raman.py:266-269 | a backward row is the forward decay row of the same slice, reversed |
| Boundary.RhoSquared | raman/raman.py:226 | one row per slice, of the power's shape; each entry times its launch power gives back the power |
| Boundary.RhoSquaredOneIff | raman/raman.py:226 | the squared gain is one exactly where the power equals the launch power |
| Boundary.RhoSquaredAtLaunch | raman/raman.py:226 | once the residual vanishes, every slice has squared gain one at its launch end |
| RamanOde.OdeRaman | raman/raman.py:274-299 | computed slice by slice and sample by sample, the result has the power's shape and each entry is the rate equation: direction times (Raman gain from higher slices, less attenuation and vibrationally weighted loss to lower slices) times the slice's power |
| RamanOde.VibrationalLoss | raman/raman.py:290 | one weight for every slice `j` below `i`, each scaling `f_j` up to `f_i`; for a lower positive frequency the weight exceeds one, so the higher slice loses more power than the lower one gains |
| RamanOde.DerivativeAtZeroPower | raman/raman.py:296 | a slice with no power at a sample has zero derivative there |
| RamanOde.FlipDirection | raman/raman.py:296 | reversing one slice's direction negates that slice's row and leaves every other row unchanged |
| RamanOde.DiagonalIgnored | raman/raman.py:293-294 | the coupling matrix's diagonal never affects the right-hand side |
| RamanOde.UncoupledAttenuation | raman/raman.py:293-296 | without Raman coupling each slice only attenuates along its own direction |
| RamanOde.SingleSliceUncoupled | raman/raman.py:289-296 | a single slice only attenuates along its own direction, whatever its one coupling entry holds |
| RamanOde.UpperTermsAreGain | raman/raman.py:293 | the coupling terms from the higher slices are exactly the terms of the Raman gain sum |
| RamanOde.LowerTermsAreLoss | raman/raman.py:290-294 | the coupling terms from the lower slices are exactly the negated terms of the Raman loss sum |
| RamanOde.GainLossPartition | raman/raman.py:293-294 | gain minus loss is the sum of the coupling terms over all slices, with no term from the slice itself |
| RamanOde.FluxMatrixAntisymmetric | raman/raman.py:293-294 | with a symmetric coupling table the photon flux exchanged between two slices is antisymmetric |
| RamanOde.PairFluxBalance | raman/raman.py:290-294 | the photon flux a lower slice gains from a higher one equals the flux the higher one loses to it |
| RamanOde.ForwardLosslessPhotonDerivative | raman/raman.py:290-296 | for a forward, lossless slice, its photon rate is its net coupling times its photon count |
| RamanOde.FluxRowScaled | raman/raman.py:290-296 | a row of the flux matrix sums to the slice's net coupling times its photon count |
| RamanOde.FluxMatrixRow | raman/raman.py:290-296 | for a forward, lossless slice, the photon rate is the sum of the fluxes it exchanges with all slices |
| RamanOde.AntisymmetricBlockSum | raman/raman.py:293-294 | an antisymmetric square matrix sums to zero over its leading square blocks |
| RamanOde.PhotonFluxConserved | raman/raman.py:288-296 | for lossless co-propagating slices and a symmetric coupling table, the photon rates of all slices sum to zero at every sample: Raman scattering moves photons between slices without creating or destroying them |

## Left out

- Boundary-value solution: `solve_bvp` is the `solveBvp` field of `Library`. The model states what the solver is given, and what the getter does with any result it returns. It does not model collocation, mesh refinement or the tolerance, and it does not prove that a returned profile satisfies the rate equations.
- Library routines: `raman/utilities.py` (and so `compute_power_spectrum`) is not part of this model. Its result is the `powerSpectrum` field of `Library`. A result whose power, frequency and direction vectors differ in length is `Err(SpectrumShapeMismatch)`.
- Interpolant: the values `interp1d` returns are the abstract `interp1d` field. Only the checks that scipy makes are modelled: equal column lengths and the default out-of-range refusal.
- Exponential: `np.exp` is the abstract `exp` field. The guess lemmas assume only `exp(0) = 1`.
- Boundary.RhoSquared: the square root at line 227 is left out. The model keeps the squared field gain `P / P_launch`, because Dafny's reals have no square root. So `rho = 1` at launch is stated as `rho^2 = 1`.
- ASE numerics: `_ase_int` (lines 147-175) is left out. This covers the cumulative trapezoidal integrals, the Planck and Boltzmann factors, and the dBm conversion. It is floating-point quadrature over physical constants, and its result is never stored.
- Solver.RamanSolver.RamanAseSolution: models only the control flow and the caches. The profile is read once: the second read at line 121 returns what the first read at line 118 cached.
- Output: plotting, `plt.show()` and the `print` calls (lines 99-100, 122-142, 198-199) are output only. The verbose flag is carried into the problem and does nothing else.
- Property getters: the plain getters (lines 39-41, 48-50, 62-64, 70-72) are reads of the class fields.
- Floating point: all arithmetic is on exact reals, so rounding, overflow, `inf` and `nan` are not modelled.
- Solver.Solve: a slice launched with zero power is `Err(ZeroLaunchPower)`. The source would divide by zero at line 226 and store `inf` or `nan`.
- RamanOde.OdeRaman: requires all frequencies to be non-zero. The source divides by them at line 290 and would produce `inf` or `nan` rather than fail.
- Python errors: an attribute access on a missing fiber or missing parameters raises in the source. The model returns `MissingFiberInformation` or `MissingSolverParams` instead.
- Solver.SetupProblem: a resolution that is not positive, or a mesh of fewer than two points, is `Err(InvalidGrid)`. The source raises there instead: numpy for a zero step, and the solver for an empty, one-point or decreasing mesh.
- Solver.SetupProblemOnFiberGrid: the corrected mesh goes only as far as the problem set-up. `Solve` and the `RamanSolver` class use the source's mesh from `SetupProblem`, so there is no corrected solve or cache.
- Coefficients.AttenuationVector: a table with no samples is `Err(EmptyTable)`. The source fails too, at a different point. With two or more slices, the broadcast at line 207 raises at once. With one slice, line 207 gives an empty vector, and indexing it at line 267 or 269 raises. With no slices at all, the source's broadcast succeeds, but the model still reports `EmptyTable`.
- Coefficients.CouplingMatrix: a table with no samples is `Err(EmptyTable)` with two or more slices, where the broadcast at line 214 raises. With one slice, line 214 gives a 1×0 matrix, and the empty sums at lines 293-294 make the solve go ahead without coupling. The model stands for that matrix with a 1×1 matrix of 0. Its one entry is the diagonal, which the right-hand side never reads (`RamanOde.SingleSliceUncoupled`), so the solve goes ahead uncoupled as in the source.
- Convergence flag: the source ignores `success` and caches a profile that did not converge. The model does the same and passes the flag on in `BvpSolution.success`; non-convergence is not reported as an error.
- ASE cache: a cached result derived from the profile would normally be cleared with it. The source never stores an ASE result (line 143 is commented out) and no setter touches that cache. The model follows the source, and every setter keeps `ramanAseSolution` as it was.
- Example scripts: `examples/main_raman_amplifier.py` and `examples/main_compute_nli.py` are callers, not part of the solver.

## Findings

| source | as written | input that shows it | evidently intended | confidence | as-written member | corrected member |
|---|---|---|---|---|---|---|
| raman/raman.py:66-68 | the pump setter stores the new pumps but does not clear `_raman_bvp_solution` | solve once without pumps, set pump information, read the profile again: the profile for the old pump set comes back (1 W instead of 2 W in the example) | clear the cached profile as the other three setters do | high; not executed | Solver.RamanSolver.SetRamanPumpInformation, Solver.StalePumpRead | Solver.RamanSolver.SetRamanPumpInformationInvalidating, Solver.FreshPumpRead |
| raman/raman.py:217 | the mesh is `arange(0, length + 1, z_resolution)` | length 1500 m, resolution 1000 m: the mesh ends at 1000 m; length 10 m, resolution 0.4 m: the mesh ends at 10.8 m | a mesh from 0 to exactly the fiber length, so the backward boundary condition is imposed at the fiber end | medium; not executed | Grid.ArangeGrid, Grid.ArangeGridStopsShort, Grid.ArangeGridOvershoots, Solver.SetupProblem | Grid.FiberGrid, Grid.GridsAgreeOnWholeSteps, Solver.SetupProblemOnFiberGrid, Solver.ProblemsAgreeOnWholeSteps |

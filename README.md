# Decision logic of the linearized Euler driver, in Dafny

This project models the control layer of `source/linearized_euler.cc`. That file solves the linearized
Euler equations with explicit time stepping on an adaptively refined mesh. The model covers five pieces of
its decision logic and proves what they promise. Reals stand in for `double`.

- **Refinement-flag post-processing** (`adapt_mesh`), module `MeshAdaptation`. The fixed-number strategy
  has already flagged the cells. A loop then edits each locally owned cell's flags in place. First it
  clamps them against the level bounds `min_level = n_refinements` and
  `max_level = min_level + n_adaptive_refinements`. Then it applies a relative override against the
  baseline error `maximal_cellwise_error_init`: below 10 % of the baseline the refine flag goes, and below
  5 % a coarsen flag is set. The mesh is an array of `Cell` records. `PostProcessFlags` edits it in
  place, as `AdjustFlags` specifies for each cell.
- **Time-step size** (`compute_time_step_size`), module `TimeStepSize`. The Courant number times a running
  minimum of `minimum_vertex_distance` over the owned cells. The running minimum starts at the largest
  double.
- **Baseline lifecycle, adaptation schedule and stability monitor** (`run`, `adapt_mesh`,
  `output_results`, `cfl_stable`), module `EulerProblem`. The class `Problem` holds the fields the source
  updates. The baseline starts at the sentinel -1. It is set once, after the last initial adaptive pass,
  to the largest cell error. During stepping the mesh is adapted only at step numbers divisible by the
  interval. Every output records the density error. With the stability analysis on, the first output
  also records the error and the density magnitude as first values. When the error has grown against them,
  the clock is moved to the final time, which truncates the run.
- **CFL bracket search** (`run_cfl_stability_analysis`), module `CflSearch`. Twelve complete runs narrow
  a bracket (closest stable, closest unstable, test). A run is an oracle `isStable: real -> bool`.
  `std::pow(fe_degree, 1.5)` is an opaque `scale >= 1`; the decision at line 733 uses it.

Where the code and its documented intent differ, the model follows the code:

- The clamp tests level **equality**. Its two branches are an `if`/`else if`: a coarsen flag at the
  minimal level stays when the refine flag was just cleared at the maximal level.
- The override runs after the clamp. So a cell at the minimal level with an error below 5 % of the
  baseline ends with a coarsen flag. The lower level bound is therefore not enforced
  (`OverrideCanFlagMinLevelCell`).
- The override is not switched off before the baseline is measured. It is inert then only because the
  sentinel is -1 and errors are not negative (`SentinelBaselineOnlyClamps`).
- The degree scale `pow(fe_degree, 1.5)` is not for reporting only. It decides between the decrement 0.1
  and the division by 3.
- "The unstable bound ends at most at the start value" holds for a start of at most 99
  (`ImmediatelyUnstableStart`). Above 99 the search increases the test by 0.05 even after an unstable
  run. Even with monotone verdicts this can push the unstable bound past the start
  (`UnstableBoundCanPassStartAbove99`).

## Model

| member | source | states |
|---|---|---|
| `MeshAdaptation.ClampFlags` | source/linearized_euler.cc:275-278 | the refine flag survives exactly when the level is not the maximal one; a coarsen flag is only ever cleared, and it is cleared exactly at the minimal level when the refine branch did not fire |
| `MeshAdaptation.RelativeOverride` | source/linearized_euler.cc:279-285 | the refine flag survives exactly when the error is not below 0.1·baseline; the coarsen flag is set exactly when it was set or the error is below 0.05·baseline |
| `MeshAdaptation.AdjustFlags` | source/linearized_euler.cc:273-285 | only flags change; cells owned elsewhere are untouched; no refine flag is ever set; no owned cell at the maximal level, and none with error below 0.1·baseline, keeps a refine flag; every owned cell with error below 0.05·baseline ends with a coarsen flag, at any level; a new coarsen flag appears only through that override |
| `MeshAdaptation.SmallErrorNeverBothFlags` | source/linearized_euler.cc:279-285 | with a positive baseline, an owned cell with error below 0.05·baseline ends coarsen-flagged and not refine-flagged, so never with both flags |
| `MeshAdaptation.SentinelBaselineOnlyClamps` | source/linearized_euler.cc:279-285 | with the baseline at its initial sentinel -1 (line 165) and a non-negative error, the loop body is exactly the level clamp |
| `MeshAdaptation.OverrideCanFlagMinLevelCell` | source/linearized_euler.cc:277-285 | a witness (an owned cell at the minimal level 2 with error 0, baseline 1) that the override after the clamp can leave a min-level cell coarsen-flagged; `AdjustFlags` states the general case |
| `MeshAdaptation.PostProcessFlags` | source/linearized_euler.cc:271-286 | the in-place loop leaves every cell as `AdjustFlags` of its old value; afterwards no owned max-level cell and no owned cell below 0.1·baseline is refine-flagged, every owned cell below 0.05·baseline is coarsen-flagged, and unowned cells are unchanged |
| `MeshAdaptation.LInfinityNorm` | source/linearized_euler.cc:594-597 | the norm is non-negative, bounds every entry in absolute value, is 0 for an empty vector and is attained by some entry |
| `MeshAdaptation.NormOfNonNegativeIsMax` | source/linearized_euler.cc:596-597 | for a non-empty non-negative error vector the baseline is its largest entry |
| `TimeStepSize.MinOwnedDistance` | source/linearized_euler.cc:502-511 | the running minimum never exceeds its start value, the largest double |
| `TimeStepSize.MinIsLowerBound` | source/linearized_euler.cc:505-511 | the minimum is at most the distance of every owned cell |
| `TimeStepSize.MinIsStartOrAttained` | source/linearized_euler.cc:502-511 | the minimum is the start value or the distance of some owned cell |
| `TimeStepSize.NoOwnedCellKeepsStart` | source/linearized_euler.cc:502-511 | with no owned cell the minimum is the largest double |
| `TimeStepSize.MinAttainedByOwnedCell` | source/linearized_euler.cc:505-511 | when some owned cell has a finite distance, the minimum equals the distance of an owned cell |
| `TimeStepSize.ComputeTimeStepSize` | source/linearized_euler.cc:499-514 | the step equals the Courant number times the minimum over owned cells; for a non-negative Courant number it is at most the Courant number times each owned cell's distance; with no owned cell it is the Courant number times the largest double |
| `CflSearch.Initial` | source/linearized_euler.cc:699-701 | before the first trial the test is the configured Courant number and neither bound is known (stable below 0, unstable above 99); a positive start is a consistent search state |
| `CflSearch.Judge` | source/linearized_euler.cc:711-724 | in 2 or 3 dimensions a trial's verdict is the run's verdict; in any other dimension no run happens and every verdict is unstable |
| `CflSearch.Update` | source/linearized_euler.cc:726-741 | after one trial the stable bound changes only to the value just tested and judged stable, the unstable bound only to a value judged unstable; with both bounds known the next test is their midpoint |
| `CflSearch.UpdateKeepsConsistent` | source/linearized_euler.cc:726-741 | one trial preserves the search invariant (test positive; before a stable run the test lies below a known unstable bound; after one it lies above the stable bound; with both bounds known it lies strictly between them), and a known unstable bound of at most 99 never grows |
| `CflSearch.Search` | source/linearized_euler.cc:703-744 | the bracket after n trials: each trial judges the current test value and applies `Update`; the reference definition every other search contract is stated against |
| `CflSearch.Tested` | source/linearized_euler.cc:703-744 | n trials test exactly n values, the first being the start value |
| `CflSearch.SearchKeepsLastVerdicts` | source/linearized_euler.cc:726-729 | after any number of trials the stable (unstable) bound is the last tested value judged stable (unstable), or the starting bound when there is none |
| `CflSearch.SearchLastStep` | source/linearized_euler.cc:703-744 | the n-th trial updates the bracket reached after n-1 trials and appends its test value to the tested values |
| `CflSearch.SearchStaysConsistent` | source/linearized_euler.cc:699-744 | from a consistent state every later state is consistent |
| `CflSearch.UnstableBoundNeverGrows` | source/linearized_euler.cc:729-741 | from a consistent state with a known unstable bound of at most 99, later unstable bounds never exceed it |
| `CflSearch.ImmediatelyUnstableStart` | source/linearized_euler.cc:699-744 | from a start in (0, 99] judged unstable, the final unstable bound is at most the start and the stable bound is the sentinel or positive |
| `CflSearch.UnstableBoundCanPassStartAbove99` | source/linearized_euler.cc:729-738 | a counterexample for starts above 99: with runs stable exactly below 99.47 (a monotone oracle) and a start of 99.5, five trials end with the unstable bound 99.55 |
| `CflSearch.MonotoneVerdictsGiveOrderedBracket` | source/linearized_euler.cc:726-729 | when verdicts are monotone, the twelve trials end with the found stable bound strictly below the found unstable bound |
| `CflSearch.UnsupportedDimensionFindsNothingStable` | source/linearized_euler.cc:712-724 | in a dimension other than 2 or 3 no run happens, every trial counts as unstable and the stable bound stays at its sentinel |
| `CflSearch.AnalysisOutcome` | source/linearized_euler.cc:699-744 | after twelve trials: twelve values tested starting at the given Courant number, bounds are the last values with each verdict or the sentinels; from a positive start the test is positive and, with both bounds known, strictly between them at their midpoint |
| `CflSearch.RunCflStabilityAnalysis` | source/linearized_euler.cc:695-744 | the twelve-iteration loop returns the bracket of the search specification, and a ghost sequence of the values it tested (kept only for the contract); the bounds are the last tested values judged stable and unstable, or the sentinels; the final test is positive for a positive start and, once both bounds are known, strictly between them at their midpoint |
| `EulerProblem.StableVerdict` | source/linearized_euler.cc:122 | the verdict of `cfl_stable` on an output history: stable exactly when the last error is at most 100 times the first error and at most 1.5 times the first magnitude |
| `EulerProblem.ErrorGrew` | source/linearized_euler.cc:474 | the growth condition: the error exceeds 100 times the first error or 1.5 times the first magnitude |
| `EulerProblem.FirstOutputGrowsOnlyByMagnitude` | source/linearized_euler.cc:470-474 | at the first output of an analysis run the error is compared with itself, so the run is truncated exactly when that error exceeds 1.5 times the magnitude |
| `EulerProblem.AdaptsAt` | source/linearized_euler.cc:664-665 | the schedule condition: the mesh is adapted after a step only with a positive adaptive budget and at a multiple of the interval |
| `EulerProblem.AdaptationCount` | source/linearized_euler.cc:664-665 | over steps 1..n the mesh is adapted n / interval times with an adaptive budget, and never without one |
| `EulerProblem.Problem.MaxLevel` | source/linearized_euler.cc:262 | the maximal level is never below the minimal level, and equals it exactly when there is no adaptive budget |
| `EulerProblem.Problem.constructor` | source/linearized_euler.cc:156-169 | the baseline starts at the sentinel -1 and the first error at -1, with no output and no adaptation yet |
| `EulerProblem.Problem.AdaptMesh` | source/linearized_euler.cc:256-315 | the cell array afterwards holds each old cell edited as `AdjustFlags` with the current baseline and level bounds; the step size becomes the Courant number times the minimum over the refined mesh; the call is logged with the baseline it used; nothing else changes |
| `EulerProblem.Problem.RefineInitialMesh` | source/linearized_euler.cc:584-599 | exactly `n_adaptive_refinements` adaptations happen, all with the old baseline; each pass's cell array (one per pass) ends as its old cells edited by `AdjustFlags` with that old baseline, so on a fresh `Problem`, whose baseline is the sentinel -1, the initial passes only clamp (`SentinelBaselineOnlyClamps`); the baseline is then the l-infinity norm of the final error estimate, or unchanged when there are no passes; after at least one pass the step size is the one computed on the mesh of the last pass |
| `EulerProblem.Problem.RecordOutput` | source/linearized_euler.cc:467-476 | the output is logged and becomes the last error (line 435); with the analysis on, the first output sets the first values, and they are untouched at every other output and whenever the analysis is off; the time becomes the final time exactly when the analysis is on and the first-vs-last growth test fires, else it is unchanged |
| `EulerProblem.Problem.CflStable` | source/linearized_euler.cc:120-123 | with the analysis on and at least one output, the result is the stable verdict on the first and last outputs, the negation of the truncation condition |
| `EulerProblem.Problem.AdvanceStep` | source/linearized_euler.cc:651-677 | the step number grows by one and the baseline stays fixed; the mesh is adapted, and the call logged, exactly when the budget is positive and the step is a multiple of the interval; an output is recorded exactly on a tick, and without a tick the monitor's last and first values are unchanged; the step size becomes the Courant number times the minimum over the refined mesh after an adaptation, and is unchanged otherwise; the time is the old time plus the step, unless the output truncates the run at the final time |

## Left out

- Mesh topology changes, solution transfer, `make_dofs`, `make_grid` and `project_initial_field` are
  foreign deal.II calls. `AdaptMesh` takes the refined mesh as a parameter and recomputes the step size
  on it.
- `refine_and_coarsen_fixed_number` (10 % / 60 %) and `estimate_error` are library calls. The flags and
  error values they produce are inputs, carried in each `Cell`.
- MPI reductions (`min`, `max`, `sum`) are collectives. The cells are one process's active cells, and
  `Cell.owned` marks the ones it owns. Each reduction across processes is the identity.
- `output_results` file writing, file naming and the norm computation by quadrature are I/O and
  floating-point work. The density error and magnitude enter `RecordOutput` as parameters.
- TimeControl's implementation is not part of this model. The clock is the fields `time`, `stepNumber`
  and `timeStep`. An advance adds one step and one step size, the behaviour `run` relies on at line 653.
  `at_tick` enters as a boolean, and `done` is not modelled.
- The outer `while (!done)` loop of `run` is therefore not one method. Each iteration is `AdvanceStep`.
- The integrator family and `LinearizedEulerOperation` are not part of this model. The integration step
  inside `AdvanceStep` and `time_step_analysis` are omitted.
- The degree and integrator dispatch in `run` (532-572, 606-645), the `dim > 1` assertion (294), the
  timers, the denormal flag in `main`, parameter reading and the exception boundary are configuration
  and process concerns, not decision logic.
- The final report of the search, including the "middle" value at line 750, is print-only.
- IEEE rounding is not modelled: `cfl_test -= 0.1`, `/= 3.0`, `+= 0.05` and the thresholds are exact
  real arithmetic.
- `last_error_val` and `first_mangnitude_val` are uninitialised in the source until the first output.
  The model starts them at 0, so `CflStable` states its meaning only after an output.
- EulerProblem.AdaptsAt: requires a positive interval when the adaptive budget is positive. With an
  interval of 0, line 665 takes a remainder by zero, which is undefined behaviour in C++.
- EulerProblem.Problem.AdvanceStep: requires the same positive interval, for the same reason.

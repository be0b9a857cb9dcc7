/** The decision logic of `LinearizedEulerProblem`: the baseline error of the
    initial condition, mesh adaptation with its schedule, and the stability
    monitor that truncates a run whose error grows. The mesh itself, the
    solution vectors, the integrator and the norms are collaborators outside
    this model; what they produce enters as parameters. */
module EulerProblem {
  import opened MeshAdaptation
  import TimeStepSize

  /** The two norms one output records: the density error against the exact
      solution (`last_error_val`) and the density magnitude (`density_mag`). */
  datatype Output = Output(error: real, magnitude: real)

  /** The growth test: the error exceeds 100 times the first recorded error,
      or 1.5 times the first recorded magnitude. */
  predicate ErrorGrew(first: Output, lastError: real) {
    lastError > 100.0 * first.error || lastError > 1.5 * first.magnitude
  }

  /** At the first output the error is compared with itself, so only the
      magnitude test can declare growth. */
  lemma FirstOutputGrowsOnlyByMagnitude(o: Output)
    requires o.error >= 0.0
    ensures ErrorGrew(o, o.error) <==> o.error > 1.5 * o.magnitude
  {
    assert !(o.error > 100.0 * o.error);
  }

  /** The verdict of a run with outputs `outputs`: stable unless the last
      output's error grew against the first output. */
  predicate StableVerdict(outputs: seq<Output>): (r: bool)
    requires outputs != []
    ensures r <==> outputs[|outputs| - 1].error <= 100.0 * outputs[0].error
                   && outputs[|outputs| - 1].error <= 1.5 * outputs[0].magnitude
  {
    !ErrorGrew(outputs[0], outputs[|outputs| - 1].error)
  }

  /** Whether the stepping loop adapts the mesh after step `step`: only with an
      adaptive budget, and only at multiples of the interval. */
  predicate AdaptsAt(nAdaptive: nat, interval: nat, step: nat)
    requires nAdaptive > 0 ==> interval > 0
  {
    nAdaptive > 0 && step % interval == 0
  }

  /** How many of the steps 1..n adapt the mesh. */
  function AdaptationsUpTo(nAdaptive: nat, interval: nat, n: nat): nat
    requires nAdaptive > 0 ==> interval > 0
  {
    if n == 0 then 0
    else AdaptationsUpTo(nAdaptive, interval, n - 1) + (if AdaptsAt(nAdaptive, interval, n) then 1 else 0)
  }

  /** Over the first n steps the mesh is adapted n / interval times, and never
      without an adaptive budget. */
  lemma {:induction false} AdaptationCount(nAdaptive: nat, interval: nat, n: nat)
    requires nAdaptive > 0 ==> interval > 0
    ensures AdaptationsUpTo(nAdaptive, interval, n) == if nAdaptive == 0 then 0 else n / interval
  {
    if n > 0 {
      AdaptationCount(nAdaptive, interval, n - 1);
      if nAdaptive > 0 {
        DivisionStep(n, interval);
      }
    }
  }

  /** Moving from n - 1 to n raises n / k by one exactly when k divides n. */
  lemma DivisionStep(n: nat, k: nat)
    requires n > 0 && k > 0
    ensures n / k == (n - 1) / k + (if n % k == 0 then 1 else 0)
  {
    var q, r := (n - 1) / k, (n - 1) % k;
    assert n - 1 == q * k + r && 0 <= r < k;
    if r == k - 1 {
      assert n == (q + 1) * k;
      DivModUnique(n, k, q + 1, 0);
    } else {
      assert n == q * k + (r + 1);
      DivModUnique(n, k, q, r + 1);
    }
  }

  lemma DivModUnique(n: nat, k: nat, q: int, r: int)
    requires k > 0 && n == q * k + r && 0 <= r < k
    ensures n / k == q && n % k == r
  {
    var q', r' := n / k, n % k;
    assert n == q' * k + r' && 0 <= r' < k;
    if q' > q {
      MultipleAtLeast(q' - q, k);
    } else if q' < q {
      MultipleAtLeast(q - q', k);
    }
  }

  lemma MultipleAtLeast(a: int, k: nat)
    requires a >= 1 && k > 0
    ensures a * k >= k
  {
    assert a * k == (a - 1) * k + k;
  }

  class Problem {
    // parameters of the run
    const minLevel: int        // `n_refinements`
    const nAdaptive: nat       // `n_adaptive_refinements`
    const interval: nat        // `adaptive_refinement_interval`
    const cflNumber: real
    const finalTime: real
    const cflAnalysis: bool    // `cfl_stability_analysis`

    var baseline: real         // `maximal_cellwise_error_init`
    var lastError: real        // `last_error_val`
    var firstError: real       // `first_error_val`
    var firstMagnitude: real   // `first_mangnitude_val`

    // the clock of the run's time control
    var time: real
    var stepNumber: nat
    var timeStep: real

    /** The baseline each call of `adapt_mesh` worked with, in call order. */
    ghost var adaptLog: seq<real>
    /** The norms of each output, in order. */
    ghost var outputs: seq<Output>

    /** `max_level` of `adapt_mesh`: never below the minimal level, and equal
        to it without an adaptive budget. */
    function MaxLevel(): (l: int)
      ensures l >= minLevel
      ensures nAdaptive == 0 <==> l == minLevel
    {
      minLevel + nAdaptive
    }

    /** The monitor's fields summarise the outputs: the last error is the
        last output's; with the analysis on, the first values are the first
        output's, and the first error is negative exactly before any output. */
    ghost predicate Valid()
      reads this`outputs, this`lastError, this`firstError, this`firstMagnitude
    {
      && (outputs != [] ==> lastError == outputs[|outputs| - 1].error)
      && (cflAnalysis && outputs != [] ==>
            0.0 <= firstError == outputs[0].error && firstMagnitude == outputs[0].magnitude)
      && (cflAnalysis && outputs == [] ==> firstError < 0.0)
      && (!cflAnalysis ==> firstError == -1.0)
    }

    /** The constructor, with the set-up of the time control at `run`'s start. */
    constructor (minLevel: int, nAdaptive: nat, interval: nat, cflNumber: real, finalTime: real,
                 cflAnalysis: bool, initialTimeStep: real)
      ensures Valid()
      ensures this.minLevel == minLevel && this.nAdaptive == nAdaptive && this.interval == interval
      ensures this.cflNumber == cflNumber && this.finalTime == finalTime && this.cflAnalysis == cflAnalysis
      ensures baseline == BaselineSentinel && firstError == -1.0
      ensures time == 0.0 && stepNumber == 0 && timeStep == initialTimeStep
      ensures adaptLog == [] && outputs == []
    {
      this.minLevel, this.nAdaptive, this.interval := minLevel, nAdaptive, interval;
      this.cflNumber, this.finalTime, this.cflAnalysis := cflNumber, finalTime, cflAnalysis;
      baseline := BaselineSentinel;
      firstError := -1.0;
      lastError, firstMagnitude := 0.0, 0.0;
      time, stepNumber, timeStep := 0.0, 0, initialTimeStep;
      adaptLog, outputs := [], [];
    }

    /** `adapt_mesh`: `cells` are the active cells with the error estimate and
        the flags of the fixed-number strategy; the flag loop edits them with
        the current baseline. `refined` is the mesh the library produces from
        those flags; the step size is recomputed on it. */
    method AdaptMesh(cells: array<Cell>, refined: array<Cell>)
      requires Valid()
      modifies this`timeStep, this`adaptLog, cells
      ensures Valid()
      ensures FlagsAdjusted(cells, old(cells[..]), minLevel, MaxLevel(), baseline)
      ensures timeStep == TimeStepSize.StepSize(cflNumber, refined[..])
      ensures adaptLog == old(adaptLog) + [baseline]
      ensures baseline == old(baseline) && outputs == old(outputs)
      ensures lastError == old(lastError) && firstError == old(firstError) && firstMagnitude == old(firstMagnitude)
      ensures time == old(time) && stepNumber == old(stepNumber)
    {
      PostProcessFlags(cells, minLevel, minLevel + nAdaptive, baseline);
      timeStep := TimeStepSize.ComputeTimeStepSize(refined, cflNumber);
      adaptLog := adaptLog + [baseline];
    }

    /** The initial adaptive passes of `run`: `nAdaptive` calls of
        `adapt_mesh`, then the baseline is set to the largest error of the
        estimate `finalErrors` on the final mesh. */
    method RefineInitialMesh(flagged: seq<array<Cell>>, refined: seq<array<Cell>>, finalErrors: seq<real>)
      requires Valid()
      requires |flagged| == nAdaptive && |refined| == nAdaptive
      // each pass flags a mesh of its own
      requires forall p, q :: 0 <= p < q < |flagged| ==> flagged[p] != flagged[q]
      modifies this`timeStep, this`adaptLog, this`baseline, flagged
      ensures Valid()
      // exactly nAdaptive adaptations, all before the baseline changes
      ensures |adaptLog| == |old(adaptLog)| + nAdaptive
      ensures adaptLog[..|old(adaptLog)|] == old(adaptLog)
      ensures forall k :: |old(adaptLog)| <= k < |adaptLog| ==> adaptLog[k] == old(baseline)
      // the baseline is set once, after the last pass
      ensures baseline == if nAdaptive > 0 then LInfinityNorm(finalErrors) else old(baseline)
      // every pass edits its flags with the old baseline
      ensures forall p :: 0 <= p < |flagged| ==>
                FlagsAdjusted(flagged[p], old(flagged[p][..]), minLevel, MaxLevel(), old(baseline))
      // the step size is the one computed on the mesh of the last pass
      ensures nAdaptive > 0 ==> timeStep == TimeStepSize.StepSize(cflNumber, refined[nAdaptive - 1][..])
      ensures outputs == old(outputs) && time == old(time) && stepNumber == old(stepNumber)
      ensures lastError == old(lastError) && firstError == old(firstError) && firstMagnitude == old(firstMagnitude)
    {
      var nRefinementsLeft: nat := nAdaptive;
      ghost var done: nat := 0;                  // passes completed
      ghost var lastMesh: array?<Cell> := null;  // the refined mesh of the latest pass
      while nRefinementsLeft > 0
        invariant done + nRefinementsLeft == nAdaptive
        invariant adaptLog == old(adaptLog) + seq(done, _ => old(baseline))
        invariant baseline == if nAdaptive > 0 && nRefinementsLeft == 0 then LInfinityNorm(finalErrors) else old(baseline)
        invariant forall p :: 0 <= p < done ==>
                    FlagsAdjusted(flagged[p], old(flagged[p][..]), minLevel, MaxLevel(), old(baseline))
        invariant forall p :: done <= p < |flagged| ==> flagged[p][..] == old(flagged[p][..])
        invariant done > 0 ==> lastMesh == refined[done - 1]
        invariant done > 0 ==> lastMesh != null && timeStep == TimeStepSize.StepSize(cflNumber, lastMesh[..])
      {
        var pass := nAdaptive - nRefinementsLeft;
        AdaptMesh(flagged[pass], refined[pass]);
        nRefinementsLeft := nRefinementsLeft - 1;
        if nRefinementsLeft == 0 {
          baseline := LInfinityNorm(finalErrors);
        }
        lastMesh, done := refined[pass], done + 1;
      }
    }

    /** The monitor in `output_results`: record the error, capture the first
        values at the first output, and truncate the run by moving the clock to
        the final time once the error has grown. `errorVal` and `magnitude`
        are square roots of sums of squares, so never negative. */
    method RecordOutput(errorVal: real, magnitude: real)
      requires Valid() && errorVal >= 0.0 && magnitude >= 0.0
      modifies this
      ensures Valid()
      ensures outputs == old(outputs) + [Output(errorVal, magnitude)]
      ensures lastError == errorVal
      // the first values are captured at the first output of an analysis run
      // and never touched otherwise
      ensures cflAnalysis && old(outputs) == [] ==> firstError == errorVal && firstMagnitude == magnitude
      ensures !cflAnalysis || old(outputs) != [] ==>
                firstError == old(firstError) && firstMagnitude == old(firstMagnitude)
      ensures time == if cflAnalysis && !StableVerdict(outputs) then finalTime else old(time)
      ensures baseline == old(baseline) && adaptLog == old(adaptLog)
      ensures stepNumber == old(stepNumber) && timeStep == old(timeStep)
    {
      lastError := errorVal;
      outputs := outputs + [Output(errorVal, magnitude)];
      if cflAnalysis {
        if firstError < 0.0 {
          firstError := lastError;
          firstMagnitude := magnitude;
        }
        if lastError > 100.0 * firstError || lastError > 1.5 * firstMagnitude {
          time := finalTime;
        }
      }
    }

    /** `cfl_stable`: the negation of the growth test, on the last output. */
    function CflStable(): (r: bool)
      reads this
      ensures Valid() && cflAnalysis && outputs != [] ==> r == StableVerdict(outputs)
    {
      !(lastError > 100.0 * firstError || lastError > 1.5 * firstMagnitude)
    }

    /** One iteration of the stepping loop in `run`: advance the clock (the
        integrator then updates the solution), adapt the mesh on schedule,
        and record an output when the time control ticks. */
    method AdvanceStep(cells: array<Cell>, refined: array<Cell>, tick: bool, errorVal: real, magnitude: real)
      requires Valid() && (nAdaptive > 0 ==> interval > 0)
      requires errorVal >= 0.0 && magnitude >= 0.0
      modifies this, cells
      ensures Valid()
      ensures stepNumber == old(stepNumber) + 1
      ensures baseline == old(baseline)
      ensures adaptLog == old(adaptLog) + (if AdaptsAt(nAdaptive, interval, stepNumber) then [baseline] else [])
      ensures forall i :: 0 <= i < cells.Length ==>
                cells[i] == if AdaptsAt(nAdaptive, interval, stepNumber)
                            then AdjustFlags(old(cells[i]), minLevel, MaxLevel(), baseline)
                            else old(cells[i])
      ensures outputs == old(outputs) + (if tick then [Output(errorVal, magnitude)] else [])
      ensures !tick ==>
                lastError == old(lastError) && firstError == old(firstError) && firstMagnitude == old(firstMagnitude)
      // an adaptation replaces the step size by the one of the refined mesh
      ensures timeStep == if AdaptsAt(nAdaptive, interval, stepNumber)
                          then TimeStepSize.StepSize(cflNumber, refined[..])
                          else old(timeStep)
      ensures time == if tick && cflAnalysis && !StableVerdict(outputs) then finalTime
                      else old(time) + old(timeStep)
    {
      stepNumber := stepNumber + 1;
      time := time + timeStep;
      if nAdaptive > 0 {
        if stepNumber % interval == 0 {
          AdaptMesh(cells, refined);
        }
      }
      if tick {
        RecordOutput(errorVal, magnitude);
      }
    }
  }

  /** A run whose error is 1.0 at the first output and 150.0 at a later one is
      truncated at that output and judged unstable. */
  method GrowthTruncatesRun()
  {
    var p := new Problem(2, 0, 1, 0.1, 1.0, true, 0.01);
    p.RecordOutput(1.0, 10.0);
    assert p.time == 0.0 && p.CflStable();
    p.RecordOutput(150.0, 10.0);
    assert p.time == p.finalTime && !p.CflStable();
  }
}

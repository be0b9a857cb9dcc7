/** Post-processing of the refinement flags in `adapt_mesh`.
    The library's fixed-number strategy has already flagged the cells; this
    module models the loop that clamps those flags against the level bounds
    and overrides them relative to the error of the initial condition. */
module MeshAdaptation {

  /** One active cell of the triangulation, as the flag loop and the time-step
      computation see it. `error` is the cell's entry of the error-estimate
      vector; `minVertexDistance` its shortest vertex-to-vertex distance. */
  datatype Cell = Cell(
    owned: bool,
    level: int,
    refine: bool,
    coarsen: bool,
    error: real,
    minVertexDistance: real)

  /** Refine threshold: a cell whose error is below this fraction of the
      baseline loses its refine flag. */
  const RefineFraction: real := 0.1
  /** Coarsen threshold: a cell whose error is below this fraction of the
      baseline gets a coarsen flag. */
  const CoarsenFraction: real := 0.05

  /** The value of `maximal_cellwise_error_init` before it is measured. */
  const BaselineSentinel: real := -1.0

  /** The level clamp: a refine flag at the maximal level is cleared; otherwise
      a coarsen flag at the minimal level is cleared. Both tests are equalities,
      and the second one is skipped when the first one fired. */
  function ClampFlags(c: Cell, minLevel: int, maxLevel: int): (r: Cell)
    ensures r.owned == c.owned && r.level == c.level
    ensures r.error == c.error && r.minVertexDistance == c.minVertexDistance
    ensures r.refine == (c.refine && c.level != maxLevel)
    ensures r.coarsen ==> c.coarsen
    ensures c.coarsen && !r.coarsen <==> c.coarsen && c.level == minLevel && !(c.refine && c.level == maxLevel)
  {
    if c.refine && c.level == maxLevel then c.(refine := false)
    else if c.coarsen && c.level == minLevel then c.(coarsen := false)
    else c
  }

  /** The relative override against the baseline: drop a refine flag when the
      error is below 10% of the baseline, set a coarsen flag when it is below 5%. */
  function RelativeOverride(c: Cell, baseline: real): (r: Cell)
    ensures r.owned == c.owned && r.level == c.level
    ensures r.error == c.error && r.minVertexDistance == c.minVertexDistance
    ensures r.refine <==> c.refine && !(c.error < RefineFraction * baseline)
    ensures r.coarsen <==> c.coarsen || c.error < CoarsenFraction * baseline
  {
    var afterRefine := if c.refine && c.error < RefineFraction * baseline then c.(refine := false) else c;
    if c.error < CoarsenFraction * baseline then afterRefine.(coarsen := true) else afterRefine
  }

  /** What the loop body does to one cell: nothing to cells owned by another
      process; the clamp and then the override to owned ones. */
  function AdjustFlags(c: Cell, minLevel: int, maxLevel: int, baseline: real): (r: Cell)
    // the loop edits flags only: the cell, its level and its error stay
    ensures r.owned == c.owned && r.level == c.level
    ensures r.error == c.error && r.minVertexDistance == c.minVertexDistance
    ensures !c.owned ==> r == c
    // the loop never sets a refine flag
    ensures r.refine ==> c.refine
    // no owned cell at the maximal level keeps a refine flag
    ensures c.owned && c.level == maxLevel ==> !r.refine
    // a small error relative to the baseline rules out refinement ...
    ensures c.owned && c.error < RefineFraction * baseline ==> !r.refine
    // ... and a very small one forces a coarsen flag, whatever the level
    ensures c.owned && c.error < CoarsenFraction * baseline ==> r.coarsen
    // a coarsen flag is new only when the error is below 5% of the baseline
    ensures r.coarsen && !c.coarsen ==> c.owned && c.error < CoarsenFraction * baseline
    // an owned cell at the minimal level, not refine-flagged at the maximal
    // level, keeps a coarsen flag only through the override
    ensures c.owned && c.level == minLevel && !(c.refine && c.level == maxLevel) && r.coarsen
            ==> c.error < CoarsenFraction * baseline
  {
    if c.owned then RelativeOverride(ClampFlags(c, minLevel, maxLevel), baseline) else c
  }

  /** With a positive baseline, an owned cell whose error is below 5% of it
      ends with a coarsen flag and without a refine flag. */
  lemma SmallErrorNeverBothFlags(c: Cell, minLevel: int, maxLevel: int, baseline: real)
    requires c.owned && baseline > 0.0 && c.error < CoarsenFraction * baseline
    ensures AdjustFlags(c, minLevel, maxLevel, baseline).coarsen
    ensures !AdjustFlags(c, minLevel, maxLevel, baseline).refine
  {
    assert c.error < RefineFraction * baseline;
  }

  /** While the baseline is still the sentinel, a non-negative error triggers
      neither part of the override: only the level clamp acts. */
  lemma SentinelBaselineOnlyClamps(c: Cell, minLevel: int, maxLevel: int)
    requires c.error >= 0.0
    ensures AdjustFlags(c, minLevel, maxLevel, BaselineSentinel)
            == if c.owned then ClampFlags(c, minLevel, maxLevel) else c
  {
    if c.owned {
      var k := ClampFlags(c, minLevel, maxLevel);
      assert !(k.error < RefineFraction * BaselineSentinel);
      assert !(k.error < CoarsenFraction * BaselineSentinel);
      assert RelativeOverride(k, BaselineSentinel) == k;
    }
  }

  /** The override runs after the clamp, so an owned cell at the minimal level
      can end with a coarsen flag: the lower level bound is not enforced. */
  lemma OverrideCanFlagMinLevelCell()
    ensures var c := Cell(true, 2, false, true, 0.0, 1.0);
            c.level == 2 && AdjustFlags(c, 2, 4, 1.0).coarsen
  {
  }

  /** The flag loop: every cell of the array is edited in place, one at a time,
      as `AdjustFlags` says. */
  method PostProcessFlags(cells: array<Cell>, minLevel: int, maxLevel: int, baseline: real)
    modifies cells
    ensures forall i :: 0 <= i < cells.Length ==>
              cells[i] == AdjustFlags(old(cells[i]), minLevel, maxLevel, baseline)
    ensures forall i :: 0 <= i < cells.Length && cells[i].owned && cells[i].level == maxLevel ==>
              !cells[i].refine
    ensures forall i :: 0 <= i < cells.Length && cells[i].owned && cells[i].error < RefineFraction * baseline ==>
              !cells[i].refine
    ensures forall i :: 0 <= i < cells.Length && cells[i].owned && cells[i].error < CoarsenFraction * baseline ==>
              cells[i].coarsen
    ensures forall i :: 0 <= i < cells.Length && !old(cells[i]).owned ==> cells[i] == old(cells[i])
  {
    var k := 0;
    while k < cells.Length
      invariant 0 <= k <= cells.Length
      invariant forall i :: 0 <= i < k ==> cells[i] == AdjustFlags(old(cells[i]), minLevel, maxLevel, baseline)
      invariant forall i :: k <= i < cells.Length ==> cells[i] == old(cells[i])
    {
      var c := cells[k];
      if c.owned {
        if c.refine && c.level == maxLevel {
          c := c.(refine := false);
        } else if c.coarsen && c.level == minLevel {
          c := c.(coarsen := false);
        }
        if c.refine && c.error < RefineFraction * baseline {
          c := c.(refine := false);
        }
        if c.error < CoarsenFraction * baseline {
          c := c.(coarsen := true);
        }
      }
      cells[k] := c;
      k := k + 1;
    }
  }

  /** `a` holds the cells `before`, each edited as the flag loop edits it. */
  ghost predicate FlagsAdjusted(a: array<Cell>, before: seq<Cell>, minLevel: int, maxLevel: int, baseline: real)
    reads a
  {
    a.Length == |before| && forall i :: 0 <= i < |before| ==> a[i] == AdjustFlags(before[i], minLevel, maxLevel, baseline)
  }

  /** The largest absolute value of a vector (0 for an empty one), as the
      l-infinity norm of the error vector. */
  function LInfinityNorm(s: seq<real>): (r: real)
    ensures r >= 0.0
    ensures forall i :: 0 <= i < |s| ==> -r <= s[i] <= r
    ensures s == [] ==> r == 0.0
    ensures s != [] ==> exists i :: 0 <= i < |s| && (r == s[i] || r == -s[i])
  {
    if s == [] then 0.0
    else
      var head := if s[0] < 0.0 then -s[0] else s[0];
      var rest := LInfinityNorm(s[1..]);
      assert forall i :: 1 <= i < |s| ==> s[i] == s[1..][i - 1];
      if head >= rest then head else rest
  }

  /** For a non-negative error vector the norm is its largest entry. */
  lemma {:induction false} NormOfNonNegativeIsMax(s: seq<real>)
    requires s != []
    requires forall i :: 0 <= i < |s| ==> s[i] >= 0.0
    ensures exists i :: 0 <= i < |s| && LInfinityNorm(s) == s[i]
    ensures forall i :: 0 <= i < |s| ==> s[i] <= LInfinityNorm(s)
  {
    var r := LInfinityNorm(s);
    var i :| 0 <= i < |s| && (r == s[i] || r == -s[i]);
    assert r == s[i];
  }
}

/** `compute_time_step_size`: the Courant number times the smallest minimal
    vertex distance over the locally owned cells. */
module TimeStepSize {
  import opened MeshAdaptation

  /** `std::numeric_limits<double>::max()`, the start value of the running
      minimum, written out exactly: (2 - 2^-52) * 2^1023. */
  const MaxDouble: real :=
    179769313486231570814527423731704356798070567525844996598917476803157260780028538760589558632766878171540458953514382464234321326889464182768467546703537516986049910576551282076245490090389328944075868508455133942304583236903222948165808559332123348274797826204144723168738177180919299881250404026184124858368.0

  /** The minimum over the owned cells of the distances, started from
      `MaxDouble`; folded from the end, in the order the loop visits them. */
  function MinOwnedDistance(cells: seq<Cell>): (m: real)
    ensures m <= MaxDouble
  {
    if cells == [] then MaxDouble
    else
      var rest := MinOwnedDistance(cells[..|cells| - 1]);
      var last := cells[|cells| - 1];
      if last.owned && last.minVertexDistance < rest then last.minVertexDistance else rest
  }

  /** One more cell updates the running minimum as the loop body does. */
  lemma MinOwnedDistanceAppend(s: seq<Cell>, c: Cell)
    ensures MinOwnedDistance(s + [c])
            == if c.owned && c.minVertexDistance < MinOwnedDistance(s) then c.minVertexDistance else MinOwnedDistance(s)
  {
    assert (s + [c])[..|s|] == s;
  }

  /** The minimum is at most the distance of every owned cell. */
  lemma {:induction false} MinIsLowerBound(cells: seq<Cell>)
    ensures forall i :: 0 <= i < |cells| && cells[i].owned ==> MinOwnedDistance(cells) <= cells[i].minVertexDistance
  {
    if cells != [] {
      var init := cells[..|cells| - 1];
      MinIsLowerBound(init);
      assert forall i :: 0 <= i < |init| ==> cells[i] == init[i];
    }
  }

  /** The minimum is either the start value or the distance of an owned cell. */
  lemma {:induction false} MinIsStartOrAttained(cells: seq<Cell>)
    ensures MinOwnedDistance(cells) == MaxDouble
            || exists i :: 0 <= i < |cells| && cells[i].owned && MinOwnedDistance(cells) == cells[i].minVertexDistance
  {
    if cells != [] {
      var init := cells[..|cells| - 1];
      var last := |cells| - 1;
      MinIsStartOrAttained(init);
      if !(cells[last].owned && cells[last].minVertexDistance < MinOwnedDistance(init))
         && MinOwnedDistance(init) != MaxDouble {
        var i :| 0 <= i < |init| && init[i].owned && MinOwnedDistance(init) == init[i].minVertexDistance;
        assert cells[i] == init[i];
      }
    }
  }

  /** Without an owned cell the running minimum keeps its start value. */
  lemma {:induction false} NoOwnedCellKeepsStart(cells: seq<Cell>)
    requires forall i :: 0 <= i < |cells| ==> !cells[i].owned
    ensures MinOwnedDistance(cells) == MaxDouble
  {
    MinIsStartOrAttained(cells);
  }

  /** When some owned cell is no wider than `MaxDouble` (every finite double
      is), the minimum is the distance of an owned cell. */
  lemma MinAttainedByOwnedCell(cells: seq<Cell>, j: nat)
    requires j < |cells| && cells[j].owned && cells[j].minVertexDistance <= MaxDouble
    ensures exists i :: 0 <= i < |cells| && cells[i].owned && MinOwnedDistance(cells) == cells[i].minVertexDistance
  {
    MinIsLowerBound(cells);
    MinIsStartOrAttained(cells);
  }

  /** The step size on the cells `cells`: the Courant number times their
      smallest owned-cell distance. */
  function StepSize(cflNumber: real, cells: seq<Cell>): real
  {
    cflNumber * MinOwnedDistance(cells)
  }

  /** The loop over the active cells with its running minimum, then the
      product with the Courant number. The collective minimum over the
      processes is the identity here: `cells` are all the cells considered. */
  method ComputeTimeStepSize(cells: array<Cell>, cflNumber: real) returns (dt: real)
    ensures dt == StepSize(cflNumber, cells[..])
    ensures cflNumber >= 0.0 ==>
              forall i :: 0 <= i < cells.Length && cells[i].owned ==> dt <= cflNumber * cells[i].minVertexDistance
    ensures (forall i :: 0 <= i < cells.Length ==> !cells[i].owned) ==> dt == cflNumber * MaxDouble
  {
    var minCellDiameter := MaxDouble;
    var k := 0;
    while k < cells.Length
      invariant 0 <= k <= cells.Length
      invariant minCellDiameter == MinOwnedDistance(cells[..k])
    {
      assert cells[..k + 1] == cells[..k] + [cells[k]];
      MinOwnedDistanceAppend(cells[..k], cells[k]);
      if cells[k].owned {
        var diameter := cells[k].minVertexDistance;
        if diameter < minCellDiameter {
          minCellDiameter := diameter;
        }
      }
      k := k + 1;
    }
    assert cells[..cells.Length] == cells[..];
    OwnedCellsBoundMinimum(cells);
    dt := cflNumber * minCellDiameter;
    ScaledLowerBound(cells, cflNumber, minCellDiameter, dt);
  }

  /** The array form of `MinIsLowerBound` and `NoOwnedCellKeepsStart`. */
  lemma OwnedCellsBoundMinimum(cells: array<Cell>)
    ensures forall i :: 0 <= i < cells.Length && cells[i].owned ==> MinOwnedDistance(cells[..]) <= cells[i].minVertexDistance
    ensures (forall i :: 0 <= i < cells.Length ==> !cells[i].owned) ==> MinOwnedDistance(cells[..]) == MaxDouble
  {
    MinIsLowerBound(cells[..]);
    forall i | 0 <= i < cells.Length
      ensures cells[..][i] == cells[i]
    {
    }
    if forall i :: 0 <= i < cells.Length ==> !cells[i].owned {
      NoOwnedCellKeepsStart(cells[..]);
    }
  }

  /** The Courant number times a lower bound of the owned cells' distances is
      at most the Courant number times each of them. */
  lemma ScaledLowerBound(cells: array<Cell>, cflNumber: real, m: real, dt: real)
    requires forall i :: 0 <= i < cells.Length && cells[i].owned ==> m <= cells[i].minVertexDistance
    requires dt == cflNumber * m
    ensures cflNumber >= 0.0 ==>
              forall i :: 0 <= i < cells.Length && cells[i].owned ==> dt <= cflNumber * cells[i].minVertexDistance
  {
    if cflNumber >= 0.0 {
      forall i | 0 <= i < cells.Length && cells[i].owned
        ensures dt <= cflNumber * cells[i].minVertexDistance
      {
        MultiplyMonotone(cflNumber, m, cells[i].minVertexDistance);
      }
    }
  }

  lemma MultiplyMonotone(a: real, x: real, y: real)
    requires a >= 0.0 && x <= y
    ensures a * x <= a * y
  {
  }
}

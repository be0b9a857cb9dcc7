/** `run_cfl_stability_analysis`: twelve complete runs, each at a test Courant
    number, narrow a bracket between the largest number known to be stable and
    the smallest known to be unstable. A run is an oracle here: `isStable(c)`
    is the verdict `cfl_stable()` gives after a complete run at Courant number
    `c`. `scale` stands for `std::pow(fe_degree, 1.5)`, which is at least 1 for
    every supported degree. */
module CflSearch {

  /** Number of trial runs. */
  const Iterations: nat := 12
  /** `cfl_closest_stable` before a stable run is found. */
  const StableSentinel: real := -0.1
  /** `cfl_closest_instable` before an unstable run is found. */
  const UnstableSentinel: real := 100.0

  /** (`cfl_closest_stable`, `cfl_closest_instable`, `cfl_test`). */
  datatype Bracket = Bracket(stable: real, unstable: real, test: real)

  /** The values before the first trial (lines 699-701): no bound is known
      yet, and a positive start is a consistent state of the search. */
  function Initial(cflNumber: real): (b: Bracket)
    ensures b.test == cflNumber && b.stable < 0.0 && b.unstable > 99.0
    ensures cflNumber > 0.0 ==> Consistent(b)
  {
    Bracket(StableSentinel, UnstableSentinel, cflNumber)
  }

  /** The verdict of one trial: a run happens only in 2 or 3 dimensions;
      otherwise the verdict keeps its initial value, unstable. */
  function Judge(dimension: int, isStable: real -> bool): (j: real -> bool)
    ensures dimension == 2 || dimension == 3 ==> forall c :: j(c) == isStable(c)
    ensures dimension != 2 && dimension != 3 ==> forall c :: !j(c)
  {
    c => (dimension == 2 || dimension == 3) && isStable(c)
  }

  /** The invariant of the search state, for a positive start:
      the test is positive; a bound is its sentinel or a positive tested value;
      before a stable run, the test lies below a known unstable bound; once a
      stable run is known, the test lies above it; and once both bounds are
      known (the unstable one at most 99) the test is their midpoint. */
  ghost predicate Consistent(b: Bracket) {
    && b.test > 0.0
    && (b.stable == StableSentinel || b.stable > 0.0)
    && (b.stable < 0.0 ==> b.unstable == UnstableSentinel || b.test < b.unstable)
    && (b.stable >= 0.0 ==> b.stable < b.test)
    && (b.stable >= 0.0 && b.unstable <= 99.0 ==>
          b.test < b.unstable && b.test == (b.stable + b.unstable) / 2.0)
  }

  /** One iteration after the run: record the verdict in the bracket, then
      choose the next test value (lines 726-741). */
  function Update(b: Bracket, stableRun: bool, scale: real): (r: Bracket)
    requires scale >= 1.0
    // a bound changes only to the value just tested, with the matching verdict
    ensures r.stable == b.stable || (stableRun && r.stable == b.test)
    ensures r.unstable == b.unstable || (!stableRun && r.unstable == b.test)
    // with both bounds known, the next test is their midpoint
    ensures r.stable >= 0.0 && r.unstable <= 99.0 ==> r.test == (r.stable + r.unstable) / 2.0
  {
    var stable := if stableRun then b.test else b.stable;
    var unstable := if stableRun then b.unstable else b.test;
    var test :=
      if stable < 0.0 then
        (if b.test / scale > 0.15 then b.test - 0.1 else b.test / 3.0)
      else if unstable > 99.0 then b.test + 0.05
      else (unstable + stable) / 2.0;
    Bracket(stable, unstable, test)
  }

  /** One iteration keeps the search state consistent, and a known unstable
      bound (at most 99) never grows. */
  lemma UpdateKeepsConsistent(b: Bracket, stableRun: bool, scale: real)
    requires scale >= 1.0 && Consistent(b)
    ensures Consistent(Update(b, stableRun, scale))
    ensures b.unstable <= 99.0 ==> Update(b, stableRun, scale).unstable <= b.unstable
  {
    var r := Update(b, stableRun, scale);
    if r.stable < 0.0 && b.test / scale > 0.15 {
      // the decrement keeps the test positive because the scale is at least 1
      AboveScaledThreshold(b.test, scale);
    }
  }

  lemma AboveScaledThreshold(t: real, scale: real)
    requires scale >= 1.0 && t / scale > 0.15
    ensures t > 0.15
  {
    var q := t / scale;
    assert t == q * scale;
    assert (q - 0.15) * scale > 0.0;
  }

  /** The bracket after `n` more trials. */
  function Search(b: Bracket, judge: real -> bool, scale: real, n: nat): Bracket
    requires scale >= 1.0
    decreases n
  {
    if n == 0 then b else Search(Update(b, judge(b.test), scale), judge, scale, n - 1)
  }

  /** The Courant numbers tested in the next `n` trials, in order. */
  function Tested(b: Bracket, judge: real -> bool, scale: real, n: nat): (t: seq<real>)
    requires scale >= 1.0
    ensures |t| == n
    ensures n > 0 ==> t[0] == b.test
    decreases n
  {
    if n == 0 then [] else [b.test] + Tested(Update(b, judge(b.test), scale), judge, scale, n - 1)
  }

  /** The index of the last element of `s` whose verdict is `verdict`, or -1. */
  function LastIndex(s: seq<real>, judge: real -> bool, verdict: bool): (j: int)
    ensures -1 <= j < |s|
    ensures j >= 0 ==> judge(s[j]) == verdict
    ensures forall k :: j < k < |s| ==> judge(s[k]) != verdict
  {
    if s == [] then -1
    else if judge(s[|s| - 1]) == verdict then |s| - 1
    else LastIndex(s[..|s| - 1], judge, verdict)
  }

  /** The last element of `s` whose verdict is `verdict`, or `start` if none. */
  function LastJudged(s: seq<real>, judge: real -> bool, verdict: bool, start: real): real {
    var j := LastIndex(s, judge, verdict);
    if j < 0 then start else s[j]
  }

  /** Putting an element in front shifts the last index, unless there was
      none: then the front element decides. */
  lemma {:induction false} LastIndexPrepend(x: real, s: seq<real>, judge: real -> bool, verdict: bool)
    ensures LastIndex([x] + s, judge, verdict)
            == if LastIndex(s, judge, verdict) >= 0 then LastIndex(s, judge, verdict) + 1
               else if judge(x) == verdict then 0 else -1
  {
    if s != [] {
      var xs := [x] + s;
      assert xs[|xs| - 1] == s[|s| - 1];
      if judge(s[|s| - 1]) != verdict {
        assert xs[..|xs| - 1] == [x] + s[..|s| - 1];
        LastIndexPrepend(x, s[..|s| - 1], judge, verdict);
      }
    } else {
      assert [x] + s == [x];
      assert [x][..0] == [];
    }
  }

  /** The stable bound of a bracket for `verdict` true, the unstable one for false. */
  function Bound(b: Bracket, verdict: bool): real {
    if verdict then b.stable else b.unstable
  }

  /** The bounds the search ends with are the last tested values judged stable
      and unstable, or the starting bounds when there are none. */
  lemma {:induction false} SearchKeepsLastVerdicts(b: Bracket, judge: real -> bool, scale: real, n: nat, verdict: bool)
    requires scale >= 1.0
    ensures Bound(Search(b, judge, scale, n), verdict) == LastJudged(Tested(b, judge, scale, n), judge, verdict, Bound(b, verdict))
    decreases n
  {
    if n > 0 {
      var next := Update(b, judge(b.test), scale);
      var rest := Tested(next, judge, scale, n - 1);
      SearchKeepsLastVerdicts(next, judge, scale, n - 1, verdict);
      assert Tested(b, judge, scale, n) == [b.test] + rest;
      LastIndexPrepend(b.test, rest, judge, verdict);
      var j := LastIndex(rest, judge, verdict);
      if j >= 0 {
        assert ([b.test] + rest)[j + 1] == rest[j];
      }
    }
  }

  /** `Search` and `Tested` unfolded at their last trial instead of their first. */
  lemma {:induction false} SearchLastStep(b: Bracket, judge: real -> bool, scale: real, n: nat)
    requires scale >= 1.0 && n > 0
    ensures Search(b, judge, scale, n)
            == Update(Search(b, judge, scale, n - 1), judge(Search(b, judge, scale, n - 1).test), scale)
    ensures Tested(b, judge, scale, n) == Tested(b, judge, scale, n - 1) + [Search(b, judge, scale, n - 1).test]
    decreases n
  {
    if n > 1 {
      var next := Update(b, judge(b.test), scale);
      SearchLastStep(next, judge, scale, n - 1);
      assert Tested(b, judge, scale, n) == [b.test] + Tested(next, judge, scale, n - 1);
      assert Tested(b, judge, scale, n - 1) == [b.test] + Tested(next, judge, scale, n - 2);
    }
  }

  /** Every state the search passes through is consistent when the start is
      positive. */
  lemma {:induction false} SearchStaysConsistent(b: Bracket, judge: real -> bool, scale: real, n: nat)
    requires scale >= 1.0 && Consistent(b)
    ensures Consistent(Search(b, judge, scale, n))
    decreases n
  {
    if n > 0 {
      UpdateKeepsConsistent(b, judge(b.test), scale);
      SearchStaysConsistent(Update(b, judge(b.test), scale), judge, scale, n - 1);
    }
  }

  /** Starting at a positive Courant number of at most 99 that proves
      unstable, the search ends with an unstable bound no larger than the start
      and, if any run was stable, a positive stable bound. */
  lemma {:induction false} ImmediatelyUnstableStart(cflNumber: real, judge: real -> bool, scale: real, n: nat)
    requires scale >= 1.0 && 0.0 < cflNumber <= 99.0 && !judge(cflNumber) && n > 0
    ensures Search(Initial(cflNumber), judge, scale, n).unstable <= cflNumber
    ensures Search(Initial(cflNumber), judge, scale, n).stable == StableSentinel
            || Search(Initial(cflNumber), judge, scale, n).stable > 0.0
  {
    var b1 := Update(Initial(cflNumber), false, scale);
    assert b1.unstable == cflNumber;
    UnstableBoundNeverGrows(b1, judge, scale, n - 1);
    SearchStaysConsistent(b1, judge, scale, n - 1);
  }

  lemma {:induction false} UnstableBoundNeverGrows(b: Bracket, judge: real -> bool, scale: real, n: nat)
    requires scale >= 1.0 && Consistent(b) && b.unstable <= 99.0
    ensures Search(b, judge, scale, n).unstable <= b.unstable
    decreases n
  {
    if n > 0 {
      UpdateKeepsConsistent(b, judge(b.test), scale);
      UnstableBoundNeverGrows(Update(b, judge(b.test), scale), judge, scale, n - 1);
    }
  }

  /** Above 99 a known unstable bound can grow, even for a monotone oracle:
      with runs stable exactly below 99.47 and a start of 99.5, the fourth
      trial retests 99.5 and the fifth tests 99.55, which becomes the
      unstable bound. */
  lemma UnstableBoundCanPassStartAbove99()
    ensures var r := Search(Initial(99.5), c => c < 99.47, 1.0, 5);
            r.unstable == 99.55 && r.unstable > 99.5 && r.stable == 99.45
  {
    var judge := (c: real) => c < 99.47;
    var b0 := Initial(99.5);
    var b1 := Update(b0, judge(b0.test), 1.0);
    assert b1 == Bracket(StableSentinel, 99.5, 99.4);
    var b2 := Update(b1, judge(b1.test), 1.0);
    assert b2 == Bracket(99.4, 99.5, 99.45);
    var b3 := Update(b2, judge(b2.test), 1.0);
    assert b3 == Bracket(99.45, 99.5, 99.5);
    var b4 := Update(b3, judge(b3.test), 1.0);
    assert b4 == Bracket(99.45, 99.5, 99.55);
    var b5 := Update(b4, judge(b4.test), 1.0);
    assert b5 == Bracket(99.45, 99.55, 99.6);
    assert Search(b4, judge, 1.0, 1) == b5;
    assert Search(b0, judge, 1.0, 5) == Search(b4, judge, 1.0, 1);
  }

  /** For an oracle that is monotone (every number below a stable one is
      stable), a stable bound found by the search lies strictly below a found
      unstable bound. */
  lemma MonotoneVerdictsGiveOrderedBracket(cflNumber: real, judge: real -> bool, scale: real)
    requires scale >= 1.0
    requires forall x: real, y: real :: x <= y && judge(y) ==> judge(x)
    ensures var r := Search(Initial(cflNumber), judge, scale, Iterations);
            r.stable != StableSentinel && r.unstable != UnstableSentinel ==> r.stable < r.unstable
  {
    var b := Initial(cflNumber);
    var r := Search(b, judge, scale, Iterations);
    var t := Tested(b, judge, scale, Iterations);
    SearchKeepsLastVerdicts(b, judge, scale, Iterations, true);
    SearchKeepsLastVerdicts(b, judge, scale, Iterations, false);
    if r.stable != StableSentinel && r.unstable != UnstableSentinel {
      assert judge(r.stable) && !judge(r.unstable);
    }
  }

  /** In an unsupported dimension no run happens and every trial counts as
      unstable: no stable bound is ever found. */
  lemma UnsupportedDimensionFindsNothingStable(cflNumber: real, dimension: int, isStable: real -> bool, scale: real)
    requires scale >= 1.0 && dimension != 2 && dimension != 3
    ensures Search(Initial(cflNumber), Judge(dimension, isStable), scale, Iterations).stable == StableSentinel
  {
    SearchKeepsLastVerdicts(Initial(cflNumber), Judge(dimension, isStable), scale, Iterations, true);
  }

  /** What the twelve trials end with, for any verdicts. */
  lemma AnalysisOutcome(cflNumber: real, judge: real -> bool, scale: real)
    requires scale >= 1.0
    ensures var r := Search(Initial(cflNumber), judge, scale, Iterations);
            var t := Tested(Initial(cflNumber), judge, scale, Iterations);
            && |t| == Iterations && t[0] == cflNumber
            && r.stable == LastJudged(t, judge, true, StableSentinel)
            && r.unstable == LastJudged(t, judge, false, UnstableSentinel)
            && (cflNumber > 0.0 ==> r.test > 0.0)
            && (cflNumber > 0.0 && r.stable >= 0.0 && r.unstable <= 99.0 ==>
                  r.stable < r.test < r.unstable && r.test == (r.stable + r.unstable) / 2.0)
  {
    var init := Initial(cflNumber);
    SearchKeepsLastVerdicts(init, judge, scale, Iterations, true);
    SearchKeepsLastVerdicts(init, judge, scale, Iterations, false);
    if cflNumber > 0.0 {
      SearchStaysConsistent(init, judge, scale, Iterations);
    }
  }

  /** The analysis loop. It returns the bracket it ends with, the final test
      value (written back as the Courant number) and, for the contract, the
      values it tested. */
  method RunCflStabilityAnalysis(cflNumber: real, dimension: int, isStable: real -> bool, scale: real)
    returns (closestStable: real, closestUnstable: real, cflTest: real, ghost tested: seq<real>)
    requires scale >= 1.0
    ensures Bracket(closestStable, closestUnstable, cflTest)
            == Search(Initial(cflNumber), Judge(dimension, isStable), scale, Iterations)
    ensures tested == Tested(Initial(cflNumber), Judge(dimension, isStable), scale, Iterations)
    ensures |tested| == Iterations && tested[0] == cflNumber
    // the stable bound is the last tested value judged stable, else the sentinel
    ensures closestStable == LastJudged(tested, Judge(dimension, isStable), true, StableSentinel)
    // the unstable bound is the last tested value judged unstable, else the sentinel
    ensures closestUnstable == LastJudged(tested, Judge(dimension, isStable), false, UnstableSentinel)
    // from a positive start the test stays positive, and with both bounds
    // known it is strictly between them, at their midpoint
    ensures cflNumber > 0.0 ==> cflTest > 0.0
    ensures cflNumber > 0.0 && closestStable >= 0.0 && closestUnstable <= 99.0 ==>
              closestStable < cflTest < closestUnstable && cflTest == (closestStable + closestUnstable) / 2.0
  {
    ghost var judge := Judge(dimension, isStable);
    ghost var init := Initial(cflNumber);
    cflTest := cflNumber;
    closestStable := StableSentinel;
    closestUnstable := UnstableSentinel;
    tested := [];
    var i := 0;
    while i < Iterations
      invariant 0 <= i <= Iterations
      invariant Bracket(closestStable, closestUnstable, cflTest) == Search(init, judge, scale, i)
      invariant tested == Tested(init, judge, scale, i)
    {
      ghost var before := Bracket(closestStable, closestUnstable, cflTest);
      SearchLastStep(init, judge, scale, i + 1);
      var simuWasStable := false;
      if dimension == 2 || dimension == 3 {
        simuWasStable := isStable(cflTest);
      }
      assert simuWasStable == judge(cflTest);
      tested := tested + [cflTest];
      if simuWasStable {
        closestStable := cflTest;
      } else {
        closestUnstable := cflTest;
      }
      if closestStable < 0.0 {
        if cflTest / scale > 0.15 {
          cflTest := cflTest - 0.1;
        } else {
          cflTest := cflTest / 3.0;
        }
      } else if closestUnstable > 99.0 {
        cflTest := cflTest + 0.05;
      } else {
        cflTest := (closestUnstable + closestStable) / 2.0;
      }
      assert Bracket(closestStable, closestUnstable, cflTest) == Update(before, simuWasStable, scale);
      i := i + 1;
    }
    AnalysisOutcome(cflNumber, judge, scale);
  }
}

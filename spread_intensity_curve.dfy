/** One side's spread ladder: N level trackers at the spreads 0, step,
    2·step, …, the intensity vector they fill, and the A/k solver the
    vector goes to. */
module SpreadCurve {
  import opened Wrappers
  import opened RealMath
  import opened EmpiricalIntensity
  import opened AkSpreads
  import opened AkFactory

  // ---------------------------------------------------------------------
  // The ladder

  /** The spread of level i. */
  function LevelSpread(step: real, i: nat): real
  {
    (i as real) * step
  }

  /** The spread specification of a ladder of n levels. */
  function Ladder(step: real, n: nat): (r: seq<real>)
    ensures |r| == n
    ensures forall i :: 0 <= i < n ==> r[i] == LevelSpread(step, i)
  {
    seq(n, i requires 0 <= i < n => LevelSpread(step, i))
  }

  /** The side every level of the ladder trades: Math.signum(spreadStep)
      is positive exactly for a sell ladder. */
  function LevelSide(step: real): Side
  {
    SideOfSign(step)
  }

  /** Level 0 sits at the mid, and each level is one step further out. */
  lemma LadderSteps(step: real, n: nat)
    ensures n > 0 ==> Ladder(step, n)[0] == 0.0
    ensures forall i :: 0 <= i < n - 1 ==> Ladder(step, n)[i + 1] == Ladder(step, n)[i] + step
  {
    forall i | 0 <= i < n - 1
      ensures LevelSpread(step, i + 1) == LevelSpread(step, i) + step
    {
      LevelSpreadStep(step, i);
    }
  }

  lemma LevelSpreadStep(step: real, i: nat)
    ensures LevelSpread(step, i + 1) == LevelSpread(step, i) + step
  {
    assert ((i + 1) as real) * step == (i as real) * step + step;
  }

  lemma LevelSpreadNegated(step: real, i: nat)
    ensures LevelSpread(-step, i) == -LevelSpread(step, i)
  {
    assert (i as real) * (-step) == -((i as real) * step);
  }

  /** The buy ladder (−step) and the sell ladder (+step) hand their solvers
      the same spread specification. */
  lemma BothSidesSolveSameSpreads(step: real, n: nat)
    ensures AbsSpreads(Ladder(-step, n)) == AbsSpreads(Ladder(step, n))
  {
    forall i | 0 <= i < n
      ensures Ladder(-step, n)[i] == -Ladder(step, n)[i]
    {
      LevelSpreadNegated(step, i);
    }
    AbsSpreadsOfNegated(Ladder(step, n), Ladder(-step, n));
  }

  /** The side a level would get from the two-argument tracker constructor,
      which decides by the sign of the level's own spread. */
  function LevelSideAsWritten(step: real, i: nat): Side
  {
    SideOfSign(LevelSpread(step, i))
  }

  lemma LevelSpreadSign(step: real, i: nat)
    ensures i > 0 && step > 0.0 ==> LevelSpread(step, i) > 0.0
    ensures step <= 0.0 ==> LevelSpread(step, i) <= 0.0
    ensures i == 0 ==> LevelSpread(step, i) == 0.0
  {
    var c := i as real;
    if i > 0 && step > 0.0 {
      assert c * step > 0.0;
    } else if step <= 0.0 {
      assert c * step <= 0.0;
    }
  }

  /** Deciding by each level's own spread differs from the ladder's side at
      exactly one level: level 0 of a sell ladder, whose spread 0 selects
      the buy rule. */
  lemma SideAsWrittenDiffers(step: real, i: nat)
    ensures LevelSideAsWritten(step, i) != LevelSide(step) <==> i == 0 && step > 0.0
  {
    LevelSpreadSign(step, i);
  }

  // ---------------------------------------------------------------------
  // The ladder's level states

  /** Every level's state after one tick of a ladder with the given step:
      level i ticks with the ladder's side and its own spread. */
  function TickAll(states: seq<TrackerState>, step: real, refPrice: real, fillPrice: real, ts: int, windowStart: int): seq<TrackerState>
  {
    seq(|states|, i requires 0 <= i < |states| =>
      AfterTick(states[i], LevelSide(step), LevelSpread(step, i), refPrice, fillPrice, ts, windowStart))
  }

  /** Every level has a live tracker. */
  predicate AllLive(states: seq<TrackerState>)
  {
    forall i :: 0 <= i < |states| ==> |states[i].live| > 0
  }

  /** Every level's state after the purge that precedes an estimate. */
  function PurgeAll(states: seq<TrackerState>, ts: int, windowStart: int): seq<TrackerState>
    requires AllLive(states)
  {
    seq(|states|, i requires 0 <= i < |states| => AfterPurge(states[i], ts, windowStart))
  }

  /** The intensity vector: one estimate per level. */
  function IntensitiesOf(states: seq<TrackerState>, dt: int, ts: int): seq<Option<real>>
  {
    seq(|states|, i requires 0 <= i < |states| => Intensity(states[i], dt, ts))
  }

  /** After a tick every level has a live tracker, the newest one quoted at
      the reference price offset by that level's spread. */
  lemma TickAllReady(states: seq<TrackerState>, step: real, refPrice: real, fillPrice: real, ts: int, windowStart: int)
    ensures AllLive(TickAll(states, step, refPrice, fillPrice, ts, windowStart))
    ensures forall i :: 0 <= i < |states| ==>
      var live := TickAll(states, step, refPrice, fillPrice, ts, windowStart)[i].live;
      live[|live| - 1] == LimitOrderTracker(ts, refPrice + LevelSpread(step, i))
  {
  }

  // ---------------------------------------------------------------------
  // The ladder object

  class SpreadIntensityCurve {
    const intensityEstimators: seq<EmpiricalIntensityEstimator>
    const intensityEstimates: array<Option<real>>
    const akSolver: AkSolver
    ghost const spreadStep: real
    ghost const dt: int

    ghost function Levels(): set<object>
    {
      set e | e in intensityEstimators
    }

    ghost function Repr(): set<object>
    {
      Levels() + {intensityEstimates} + akSolver.Repr()
    }

    /** Level i is its own tracker at spread i·step, on the ladder's side and
        with the ladder's dt; the intensity vector has one slot per level and
        is not written by the solver, whose spreads are the ladder's. */
    ghost predicate Valid()
      reads Levels()
    {
      && |intensityEstimators| == intensityEstimates.Length == |akSolver.Spreads()|
      && (forall i, j :: 0 <= i < |intensityEstimators| && 0 <= j < |intensityEstimators| && i != j ==>
            intensityEstimators[i] != intensityEstimators[j])
      && (forall i :: 0 <= i < |intensityEstimators| ==> LevelIs(intensityEstimators[i], i))
      && intensityEstimates !in akSolver.Repr()
      && Levels() !! akSolver.Repr()
      && akSolver.Valid()
      && akSolver.Spreads() == AbsSpreads(Ladder(spreadStep, |intensityEstimators|))
    }

    ghost predicate LevelIs(e: EmpiricalIntensityEstimator, i: nat)
      reads e
    {
      && e.Valid()
      && e.spread == LevelSpread(spreadStep, i)
      && e.side == LevelSide(spreadStep)
      && e.dt == dt
    }

    /** The level trackers' states, level by level. */
    ghost function LevelStates(): (r: seq<TrackerState>)
      reads Levels()
      ensures |r| == |intensityEstimators|
      ensures forall i :: 0 <= i < |r| ==> r[i] == intensityEstimators[i].State()
    {
      seq(|intensityEstimators|, i reads Levels() requires 0 <= i < |intensityEstimators| => intensityEstimators[i].State())
    }

    /** Every level has a live tracker, as it has after any tick; an
        estimate needs one. */
    ghost predicate Ready()
      reads Levels()
    {
      AllLive(LevelStates())
    }

    constructor (spreadStep: real, nSpreads: nat, dt: int, solverFactory: AkSolverFactory)
      ensures Valid() && fresh(Repr())
      ensures this.spreadStep == spreadStep && this.dt == dt && |intensityEstimators| == nSpreads
      ensures akSolver.MultiCurveSolver? <==> solverFactory.solverType == MultiCurve
      ensures forall i :: 0 <= i < nSpreads ==> intensityEstimators[i].State() == TrackerState([], [])
    {
      var estimators: seq<EmpiricalIntensityEstimator> := [];
      var spreadSpecification: seq<real> := [];
      var i := 0;
      while i < nSpreads
        invariant 0 <= i <= nSpreads
        invariant |estimators| == i && spreadSpecification == Ladder(spreadStep, i)
        invariant forall j, k :: 0 <= j < i && 0 <= k < i && j != k ==> estimators[j] != estimators[k]
        invariant forall j :: 0 <= j < i ==> fresh(estimators[j])
        invariant forall j :: 0 <= j < i ==>
          && estimators[j].Valid() && estimators[j].spread == LevelSpread(spreadStep, j)
          && estimators[j].side == LevelSide(spreadStep) && estimators[j].dt == dt
          && estimators[j].State() == TrackerState([], [])
      {
        var e := new EmpiricalIntensityEstimator(LevelSpread(spreadStep, i), LevelSide(spreadStep), dt);
        estimators := estimators + [e];
        spreadSpecification := spreadSpecification + [LevelSpread(spreadStep, i)];
        i := i + 1;
      }
      var solver := solverFactory.GetSolver(spreadSpecification);
      intensityEstimators := estimators;
      intensityEstimates := new Option<real>[nSpreads](_ => Some(0.0));
      akSolver := solver;
      this.spreadStep := spreadStep;
      this.dt := dt;
    }

    /** Every level sees the same tick; each level's update touches that
        level alone. */
    method OnTick(refPrice: real, fillPrice: real, ts: int, windowStart: int)
      requires Valid()
      modifies Levels()
      ensures Valid() && Ready()
      ensures LevelStates() == TickAll(old(LevelStates()), spreadStep, refPrice, fillPrice, ts, windowStart)
    {
      ghost var before := LevelStates();
      var i := 0;
      while i < |intensityEstimators|
        invariant 0 <= i <= |intensityEstimators|
        invariant forall j :: 0 <= j < |intensityEstimators| ==> LevelIs(intensityEstimators[j], j)
        invariant forall j :: 0 <= j < |intensityEstimators| ==>
          intensityEstimators[j].State()
            == if j < i then AfterTick(before[j], LevelSide(spreadStep), LevelSpread(spreadStep, j), refPrice, fillPrice, ts, windowStart)
               else before[j]
      {
        var e := intensityEstimators[i];
        e.OnTick(refPrice, fillPrice, ts, windowStart);
        i := i + 1;
      }
      assert LevelStates() == TickAll(before, spreadStep, refPrice, fillPrice, ts, windowStart);
      TickAllReady(before, spreadStep, refPrice, fillPrice, ts, windowStart);
    }

    /** Each level purges its window and writes its intensity into slot i of
        the one reused vector; the solver's answer for that vector is
        returned. */
    method EstimateAk(ts: int, windowStart: int, m: ExpLn) returns (r: seq<Option<real>>)
      requires Valid() && Ready()
      modifies Levels(), intensityEstimates, akSolver.Repr()
      ensures Valid()
      ensures LevelStates() == PurgeAll(old(LevelStates()), ts, windowStart)
      ensures intensityEstimates[..] == IntensitiesOf(LevelStates(), dt, ts)
      ensures r == akSolver.Ak(IntensitiesOf(LevelStates(), dt, ts), m)
    {
      EstimateIntensities(ts, windowStart);
      r := SolveAk(akSolver, intensityEstimates[..], m);
    }

    /** The loop of estimateAk: slot i of the vector gets level i's estimate. */
    method EstimateIntensities(ts: int, windowStart: int)
      requires Valid() && Ready()
      modifies Levels(), intensityEstimates
      ensures Valid()
      ensures LevelStates() == PurgeAll(old(LevelStates()), ts, windowStart)
      ensures intensityEstimates[..] == IntensitiesOf(LevelStates(), dt, ts)
    {
      ghost var before := LevelStates();
      var i := 0;
      while i < |intensityEstimators|
        invariant 0 <= i <= |intensityEstimators|
        invariant forall j :: 0 <= j < |intensityEstimators| ==> LevelIs(intensityEstimators[j], j)
        invariant forall j :: 0 <= j < |intensityEstimators| ==>
          if j < i then
            && intensityEstimators[j].State() == AfterPurge(before[j], ts, windowStart)
            && intensityEstimates[j] == Intensity(intensityEstimators[j].State(), dt, ts)
          else
            intensityEstimators[j].State() == before[j]
      {
        var e := intensityEstimators[i];
        var lambda := e.EstimateIntensity(ts, windowStart);
        intensityEstimates[i] := lambda;
        i := i + 1;
      }
      assert LevelStates() == PurgeAll(before, ts, windowStart);
    }
  }
}

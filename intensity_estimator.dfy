/** The top-level estimator: a sell ladder and a buy ladder fed from the
    best bid and ask, a warm-up state machine gating readiness, and the
    combined (A, k) snapshot of both sides. */
module Estimator {
  import opened Wrappers
  import opened RealMath
  import opened IntensityModel
  import opened AkSpreads
  import opened AkFactory
  import opened SpreadCurve

  // ---------------------------------------------------------------------
  // The warm-up state machine

  /** The fields initDoneTS, isInitializing and isInitialized. */
  datatype InitState = InitState(initDoneTs: Option<int>, isInitializing: bool, isInitialized: bool)

  const InitialInit := InitState(None, true, false)

  /** What a tick does to the warm-up fields: while initializing, the first
      tick fixes the time w later at which warm-up ends, and a tick at or
      after that time ends it; afterwards ticks leave the fields alone. */
  function InitStep(s: InitState, ts: int, w: int): InitState
  {
    if !s.isInitializing then s
    else if s.initDoneTs.None? then s.(initDoneTs := Some(ts + w))
    else if s.initDoneTs.value <= ts then s.(isInitialized := true, isInitializing := false)
    else s
  }

  /** The warm-up fields after the ticks tss, from a new estimator. */
  function RunTicks(tss: seq<int>, w: int): InitState
  {
    if tss == [] then InitialInit else InitStep(RunTicks(tss[..|tss| - 1], w), tss[|tss| - 1], w)
  }

  /** After the ticks tss: warm-up ends at the first tick's time plus w; the
      estimator is initialized exactly when a later tick reached that time;
      and it is initializing exactly when it is not initialized. */
  lemma {:induction false} InitTrace(tss: seq<int>, w: int)
    requires |tss| > 0
    ensures RunTicks(tss, w).initDoneTs == Some(tss[0] + w)
    ensures RunTicks(tss, w).isInitialized <==> exists k :: 1 <= k < |tss| && tss[k] >= tss[0] + w
    ensures RunTicks(tss, w).isInitializing == !RunTicks(tss, w).isInitialized
  {
    var n := |tss| - 1;
    if n > 0 {
      var pre := tss[..n];
      InitTrace(pre, w);
      assert pre[0] == tss[0];
      if exists k :: 1 <= k < |pre| && pre[k] >= pre[0] + w {
        var k :| 1 <= k < |pre| && pre[k] >= pre[0] + w;
        assert tss[k] == pre[k];
      } else if tss[n] < tss[0] + w {
        forall k | 1 <= k < |tss|
          ensures tss[k] < tss[0] + w
        {
          if k < n {
            assert tss[k] == pre[k];
          }
        }
      }
    }
  }

  /** The first tick never reports readiness. */
  lemma FirstTickNotReady(ts: int, w: int)
    ensures InitStep(InitialInit, ts, w) == InitState(Some(ts + w), true, false)
  {
  }

  /** Once initialized, an estimator stays so and its warm-up fields never
      change again. */
  lemma {:induction false} InitializedIsFinal(tss: seq<int>, more: seq<int>, w: int)
    requires RunTicks(tss, w).isInitialized && RunTicks(tss, w).isInitializing == false
    ensures RunTicks(tss + more, w) == RunTicks(tss, w)
  {
    if more == [] {
      assert tss + more == tss;
    } else {
      var n := |more| - 1;
      assert (tss + more)[..|tss + more| - 1] == tss + more[..n];
      assert (tss + more)[|tss + more| - 1] == more[n];
      InitializedIsFinal(tss, more[..n], w);
    }
  }

  // ---------------------------------------------------------------------
  // The snapshot

  /** The mid price of a quote. */
  function MidPrice(bid: real, ask: real): real
  {
    (bid + ask) / 2.0
  }

  /** Intensities on λ = A·e^(−kδ) on each side give back the snapshot of
      exactly those parameters. */
  lemma InfoRecovers(buySolver: AkSolver, buyLam: seq<Option<real>>, buyA: real, buyK: real,
                     sellSolver: AkSolver, sellLam: seq<Option<real>>, sellA: real, sellK: real, m: ExpLn)
    requires Lawful(m) && buyA > 0.0 && sellA > 0.0
    requires |buyLam| == |buySolver.Spreads()| >= 2 && |sellLam| == |sellSolver.Spreads()| >= 2
    requires forall i, j :: 0 <= i < j < |buyLam| ==> buySolver.Spreads()[i] != buySolver.Spreads()[j]
    requires forall i, j :: 0 <= i < j < |sellLam| ==> sellSolver.Spreads()[i] != sellSolver.Spreads()[j]
    requires forall i :: 0 <= i < |buyLam| ==> buyLam[i] == Some(GetIntensity(buySolver.Spreads()[i], buyA, buyK, m))
    requires forall i :: 0 <= i < |sellLam| ==> sellLam[i] == Some(GetIntensity(sellSolver.Spreads()[i], sellA, sellK, m))
    ensures FromArrays(buySolver.Ak(buyLam, m), sellSolver.Ak(sellLam, m)) == IntensityInfo(Some(buyA), Some(buyK), Some(sellA), Some(sellK))
  {
    AkRecovers(buySolver, buyLam, buyA, buyK, m);
    AkRecovers(sellSolver, sellLam, sellA, sellK, m);
  }

  // ---------------------------------------------------------------------
  // The estimator object

  class IntensityEstimator {
    const sellExecutionIntensity: SpreadIntensityCurve
    const buyExecutionIntensity: SpreadIntensityCurve
    var initDoneTs: Option<int>
    var isInitializing: bool
    var isInitialized: bool
    const w: int
    ghost const spreadStep: real

    function InitStatus(): InitState
      reads this
    {
      InitState(initDoneTs, isInitializing, isInitialized)
    }

    ghost function Repr(): set<object>
    {
      sellExecutionIntensity.Repr() + buyExecutionIntensity.Repr()
    }

    /** The sell ladder steps by +spreadStep and the buy ladder by
        −spreadStep, with the same number of levels and dt; the two share no
        state; and the warm-up flags are each other's negation. */
    ghost predicate Valid()
      reads this, sellExecutionIntensity.Levels(), buyExecutionIntensity.Levels()
    {
      && sellExecutionIntensity.Valid() && buyExecutionIntensity.Valid()
      && sellExecutionIntensity.Repr() !! buyExecutionIntensity.Repr()
      && sellExecutionIntensity.Levels() !! buyExecutionIntensity.Repr()
      && buyExecutionIntensity.Levels() !! sellExecutionIntensity.Repr()
      && sellExecutionIntensity.intensityEstimates !in buyExecutionIntensity.Repr()
      && buyExecutionIntensity.intensityEstimates !in sellExecutionIntensity.Repr()
      && this !in Repr()
      && sellExecutionIntensity.spreadStep == spreadStep
      && buyExecutionIntensity.spreadStep == -spreadStep
      && |sellExecutionIntensity.intensityEstimators| == |buyExecutionIntensity.intensityEstimators|
      && sellExecutionIntensity.dt == buyExecutionIntensity.dt
      && isInitializing == !isInitialized
      && (isInitialized ==> initDoneTs.Some?)
    }

    constructor (spreadStep: real, nSpreads: nat, w: int, dt: int, solverFactory: AkSolverFactory)
      ensures Valid() && fresh(Repr())
      ensures InitStatus() == InitialInit && this.w == w && this.spreadStep == spreadStep
      ensures |sellExecutionIntensity.intensityEstimators| == nSpreads && sellExecutionIntensity.dt == dt
      ensures sellExecutionIntensity.akSolver.Spreads() == buyExecutionIntensity.akSolver.Spreads()
    {
      this.w := w;
      this.spreadStep := spreadStep;
      var sell, buy := NewLadders(spreadStep, nSpreads, dt, solverFactory);
      sellExecutionIntensity := sell;
      buyExecutionIntensity := buy;
      initDoneTs := None;
      isInitializing := true;
      isInitialized := false;
    }

    /** The sell ladder at +spreadStep and the buy ladder at −spreadStep. */
    static method NewLadders(spreadStep: real, nSpreads: nat, dt: int, solverFactory: AkSolverFactory)
      returns (sell: SpreadIntensityCurve, buy: SpreadIntensityCurve)
      ensures sell.Valid() && buy.Valid() && fresh(sell.Repr()) && fresh(buy.Repr())
      ensures sell.Repr() !! buy.Repr() && sell.Levels() !! buy.Levels()
      ensures sell.Levels() !! buy.Repr() && buy.Levels() !! sell.Repr()
      ensures sell.intensityEstimates !in buy.Repr() && buy.intensityEstimates !in sell.Repr()
      ensures sell.spreadStep == spreadStep && buy.spreadStep == -spreadStep
      ensures |sell.intensityEstimators| == |buy.intensityEstimators| == nSpreads
      ensures sell.dt == buy.dt == dt
      ensures sell.akSolver.Spreads() == buy.akSolver.Spreads()
    {
      sell := new SpreadIntensityCurve(spreadStep, nSpreads, dt, solverFactory);
      ghost var sellRepr := sell.Repr();
      buy := new SpreadIntensityCurve(-spreadStep, nSpreads, dt, solverFactory);
      assert sell.Repr() == sellRepr && sellRepr !! buy.Repr();
      BothSidesSolveSameSpreads(spreadStep, nSpreads);
    }

    /** The private init(ts). */
    method Init(ts: int)
      requires Valid() && isInitializing
      modifies this
      ensures Valid()
      ensures InitStatus() == InitStep(old(InitStatus()), ts, w)
      ensures sellExecutionIntensity.LevelStates() == old(sellExecutionIntensity.LevelStates())
      ensures buyExecutionIntensity.LevelStates() == old(buyExecutionIntensity.LevelStates())
    {
      if initDoneTs.None? {
        initDoneTs := Some(ts + w);
        return;
      }
      if initDoneTs.value <= ts {
        isInitialized := true;
        isInitializing := false;
      }
    }

    /** One quote: the warm-up step, then the sell ladder ticks with the
        bid and the buy ladder with the ask, both at the mid price and the
        window [ts − w, ts]; the answer is whether warm-up is over. */
    method OnTick(bid: real, ask: real, ts: int) returns (initialized: bool)
      requires Valid()
      modifies this, sellExecutionIntensity.Levels(), buyExecutionIntensity.Levels()
      ensures Valid()
      ensures InitStatus() == InitStep(old(InitStatus()), ts, w)
      ensures initialized == InitStatus().isInitialized
      ensures sellExecutionIntensity.LevelStates()
           == TickAll(old(sellExecutionIntensity.LevelStates()), spreadStep, MidPrice(bid, ask), bid, ts, ts - w)
      ensures buyExecutionIntensity.LevelStates()
           == TickAll(old(buyExecutionIntensity.LevelStates()), -spreadStep, MidPrice(bid, ask), ask, ts, ts - w)
      ensures sellExecutionIntensity.Ready() && buyExecutionIntensity.Ready()
    {
      if isInitializing {
        Init(ts);
      }
      var midPrice := (bid + ask) / 2.0;
      TickSell(midPrice, bid, ts);
      TickBuy(midPrice, ask, ts);
      initialized := isInitialized;
    }

    /** The sell ladder's tick; the buy ladder is left alone. */
    method TickSell(midPrice: real, bid: real, ts: int)
      requires Valid()
      modifies sellExecutionIntensity.Levels()
      ensures Valid() && sellExecutionIntensity.Ready()
      ensures sellExecutionIntensity.LevelStates()
           == TickAll(old(sellExecutionIntensity.LevelStates()), spreadStep, midPrice, bid, ts, ts - w)
      ensures InitStatus() == old(InitStatus())
      ensures buyExecutionIntensity.LevelStates() == old(buyExecutionIntensity.LevelStates())
    {
      sellExecutionIntensity.OnTick(midPrice, bid, ts, ts - w);
    }

    /** The buy ladder's tick; the sell ladder is left alone. */
    method TickBuy(midPrice: real, ask: real, ts: int)
      requires Valid()
      modifies buyExecutionIntensity.Levels()
      ensures Valid() && buyExecutionIntensity.Ready()
      ensures buyExecutionIntensity.LevelStates()
           == TickAll(old(buyExecutionIntensity.LevelStates()), -spreadStep, midPrice, ask, ts, ts - w)
      ensures InitStatus() == old(InitStatus())
      ensures sellExecutionIntensity.LevelStates() == old(sellExecutionIntensity.LevelStates())
      ensures sellExecutionIntensity.Ready() == old(sellExecutionIntensity.Ready())
    {
      buyExecutionIntensity.OnTick(midPrice, ask, ts, ts - w);
    }

    /** The buy ladder's estimate; the sell ladder is left alone. */
    method EstimateBuy(ts: int, m: ExpLn) returns (buyAk: seq<Option<real>>)
      requires Valid() && sellExecutionIntensity.Ready() && buyExecutionIntensity.Ready()
      modifies buyExecutionIntensity.Repr()
      ensures Valid() && sellExecutionIntensity.Ready()
      ensures buyExecutionIntensity.LevelStates() == PurgeAll(old(buyExecutionIntensity.LevelStates()), ts, ts - w)
      ensures sellExecutionIntensity.LevelStates() == old(sellExecutionIntensity.LevelStates())
      ensures buyExecutionIntensity.intensityEstimates[..] == IntensitiesOf(buyExecutionIntensity.LevelStates(), buyExecutionIntensity.dt, ts)
      ensures sellExecutionIntensity.intensityEstimates[..] == old(sellExecutionIntensity.intensityEstimates[..])
      ensures buyAk == buyExecutionIntensity.akSolver.Ak(buyExecutionIntensity.intensityEstimates[..], m)
    {
      buyAk := buyExecutionIntensity.EstimateAk(ts, ts - w, m);
    }

    /** The sell ladder's estimate; the buy ladder is left alone. */
    method EstimateSell(ts: int, m: ExpLn) returns (sellAk: seq<Option<real>>)
      requires Valid() && sellExecutionIntensity.Ready()
      modifies sellExecutionIntensity.Repr()
      ensures Valid()
      ensures sellExecutionIntensity.LevelStates() == PurgeAll(old(sellExecutionIntensity.LevelStates()), ts, ts - w)
      ensures buyExecutionIntensity.LevelStates() == old(buyExecutionIntensity.LevelStates())
      ensures sellExecutionIntensity.intensityEstimates[..] == IntensitiesOf(sellExecutionIntensity.LevelStates(), sellExecutionIntensity.dt, ts)
      ensures buyExecutionIntensity.intensityEstimates[..] == old(buyExecutionIntensity.intensityEstimates[..])
      ensures sellAk == sellExecutionIntensity.akSolver.Ak(sellExecutionIntensity.intensityEstimates[..], m)
    {
      sellAk := sellExecutionIntensity.EstimateAk(ts, ts - w, m);
    }

    /** Both ladders estimate over the window [ts − w, ts], the buy ladder
        first; each ladder's buffer holds its intensities, and each side of
        the snapshot takes that side's [A, k]. The warm-up fields are left
        alone. */
    method Estimate(ts: int, m: ExpLn) returns (info: IntensityInfo)
      requires Valid() && sellExecutionIntensity.Ready() && buyExecutionIntensity.Ready()
      modifies Repr()
      ensures Valid() && InitStatus() == old(InitStatus())
      ensures buyExecutionIntensity.LevelStates() == PurgeAll(old(buyExecutionIntensity.LevelStates()), ts, ts - w)
      ensures sellExecutionIntensity.LevelStates() == PurgeAll(old(sellExecutionIntensity.LevelStates()), ts, ts - w)
      ensures buyExecutionIntensity.intensityEstimates[..] == IntensitiesOf(buyExecutionIntensity.LevelStates(), buyExecutionIntensity.dt, ts)
      ensures sellExecutionIntensity.intensityEstimates[..] == IntensitiesOf(sellExecutionIntensity.LevelStates(), sellExecutionIntensity.dt, ts)
      ensures info == FromArrays(buyExecutionIntensity.akSolver.Ak(buyExecutionIntensity.intensityEstimates[..], m),
                                 sellExecutionIntensity.akSolver.Ak(sellExecutionIntensity.intensityEstimates[..], m))
    {
      var buyAk := EstimateBuy(ts, m);
      var sellAk := EstimateSell(ts, m);
      info := FromArrays(buyAk, sellAk);
    }
  }
}

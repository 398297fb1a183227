/** The per-spread sliding-window tracker of simulated resting limit orders.
    A level keeps the orders that are still live and the records of those
    that were filled, together with two running sums that make the
    time-at-risk of the window available without a rescan. */
module EmpiricalIntensity {
  import opened Wrappers

  /** The side of a simulated limit order; it decides the fill rule. */
  datatype Side = Buy | Sell

  /** The fill rule: a sell limit order is filled when the market price is
      above its limit price, a buy limit order when it is below. */
  predicate IsOrderFilled(side: Side, filledPrice: real, orderPrice: real)
  {
    match side
    case Sell => filledPrice > orderPrice
    case Buy => filledPrice < orderPrice
  }

  /** The side rule of the two-argument constructor: a positive value
      selects the sell rule, anything else the buy rule. */
  function SideOfSign(x: real): Side
  {
    if x > 0.0 then Sell else Buy
  }

  /** A live tracker: when the simulated order was placed and at what price. */
  datatype LimitOrderTracker = LimitOrderTracker(startTs: int, orderPrice: real)

  /** A finished tracker, the pair {start time, wait time} of a filled order. */
  datatype FinishedTracker = FinishedTracker(startTs: int, waitTime: int)

  /** The contents of the two lists of one level. */
  datatype TrackerState = TrackerState(live: seq<LimitOrderTracker>, finished: seq<FinishedTracker>)

  function SumStartTs(s: seq<LimitOrderTracker>): int
  {
    if s == [] then 0 else SumStartTs(s[..|s| - 1]) + s[|s| - 1].startTs
  }

  function SumWaitTime(s: seq<FinishedTracker>): int
  {
    if s == [] then 0 else SumWaitTime(s[..|s| - 1]) + s[|s| - 1].waitTime
  }

  // ---------------------------------------------------------------------
  // onTick

  /** What one tick does to a live tracker. Expiry is tested first, so an
      expired order is never counted as filled. */
  datatype Fate = Evicted | Filled | Kept

  function FateOf(tr: LimitOrderTracker, side: Side, fillPrice: real, windowStart: int): Fate
  {
    if windowStart > tr.startTs then Evicted
    else if IsOrderFilled(side, fillPrice, tr.orderPrice) then Filled
    else Kept
  }

  /** The record a filled tracker leaves: its start and its wait until `ts`. */
  function Record(tr: LimitOrderTracker, ts: int): FinishedTracker
  {
    FinishedTracker(tr.startTs, ts - tr.startTs)
  }

  /** The trackers among the first n that a tick keeps, in their order. */
  function SurvivorsUpTo(live: seq<LimitOrderTracker>, n: nat, side: Side, fillPrice: real, windowStart: int): seq<LimitOrderTracker>
    requires n <= |live|
  {
    if n == 0 then []
    else
      var rest := SurvivorsUpTo(live, n - 1, side, fillPrice, windowStart);
      if FateOf(live[n - 1], side, fillPrice, windowStart) == Kept then rest + [live[n - 1]] else rest
  }

  /** The records the first n trackers leave on a tick, in their order. */
  function NewlyFinishedUpTo(live: seq<LimitOrderTracker>, n: nat, side: Side, fillPrice: real, ts: int, windowStart: int): seq<FinishedTracker>
    requires n <= |live|
  {
    if n == 0 then []
    else
      var rest := NewlyFinishedUpTo(live, n - 1, side, fillPrice, ts, windowStart);
      if FateOf(live[n - 1], side, fillPrice, windowStart) == Filled then rest + [Record(live[n - 1], ts)] else rest
  }

  /** How many of the first n trackers meet a given fate. */
  function CountFateUpTo(live: seq<LimitOrderTracker>, n: nat, fate: Fate, side: Side, fillPrice: real, windowStart: int): nat
    requires n <= |live|
  {
    if n == 0 then 0
    else CountFateUpTo(live, n - 1, fate, side, fillPrice, windowStart)
         + (if FateOf(live[n - 1], side, fillPrice, windowStart) == fate then 1 else 0)
  }

  function Survivors(live: seq<LimitOrderTracker>, side: Side, fillPrice: real, windowStart: int): seq<LimitOrderTracker>
  {
    SurvivorsUpTo(live, |live|, side, fillPrice, windowStart)
  }

  function NewlyFinished(live: seq<LimitOrderTracker>, side: Side, fillPrice: real, ts: int, windowStart: int): seq<FinishedTracker>
  {
    NewlyFinishedUpTo(live, |live|, side, fillPrice, ts, windowStart)
  }

  function CountFate(live: seq<LimitOrderTracker>, fate: Fate, side: Side, fillPrice: real, windowStart: int): nat
  {
    CountFateUpTo(live, |live|, fate, side, fillPrice, windowStart)
  }

  /** The state after one tick: the survivors followed by one new tracker at
      the reference price offset by the level's spread, and the finished list
      extended by the records of the filled orders. */
  function AfterTick(st: TrackerState, side: Side, spread: real, refPrice: real, fillPrice: real, ts: int, windowStart: int): TrackerState
  {
    TrackerState(Survivors(st.live, side, fillPrice, windowStart) + [LimitOrderTracker(ts, refPrice + spread)],
                 st.finished + NewlyFinished(st.live, side, fillPrice, ts, windowStart))
  }

  // ---------------------------------------------------------------------
  // estimateIntensity

  /** The first n live trackers that have not left the window. */
  function LiveInWindowUpTo(live: seq<LimitOrderTracker>, n: nat, windowStart: int): seq<LimitOrderTracker>
    requires n <= |live|
  {
    if n == 0 then []
    else
      var rest := LiveInWindowUpTo(live, n - 1, windowStart);
      if windowStart > live[n - 1].startTs then rest else rest + [live[n - 1]]
  }

  /** The first n finished trackers whose start lies in the window. */
  function FinishedInWindowUpTo(finished: seq<FinishedTracker>, n: nat, windowStart: int): seq<FinishedTracker>
    requires n <= |finished|
  {
    if n == 0 then []
    else
      var rest := FinishedInWindowUpTo(finished, n - 1, windowStart);
      if finished[n - 1].startTs < windowStart then rest else rest + [finished[n - 1]]
  }

  function LiveInWindow(live: seq<LimitOrderTracker>, windowStart: int): seq<LimitOrderTracker>
  {
    LiveInWindowUpTo(live, |live|, windowStart)
  }

  function FinishedInWindow(finished: seq<FinishedTracker>, windowStart: int): seq<FinishedTracker>
  {
    FinishedInWindowUpTo(finished, |finished|, windowStart)
  }

  /** The purge done before an estimate: finished trackers are always purged,
      live ones only when time has moved on since the newest live tracker. */
  function AfterPurge(st: TrackerState, ts: int, windowStart: int): TrackerState
    requires |st.live| > 0
  {
    TrackerState(if ts != st.live[|st.live| - 1].startTs then LiveInWindow(st.live, windowStart) else st.live,
                 FinishedInWindow(st.finished, windowStart))
  }

  /** Time the live orders have been waiting so far. */
  function LiveWait(live: seq<LimitOrderTracker>, ts: int): int
  {
    if live == [] then 0 else LiveWait(live[..|live| - 1], ts) + (ts - live[|live| - 1].startTs)
  }

  /** Total order-time at risk in the window: the waits of the live orders
      plus those of the filled ones. */
  function TimeAtRisk(st: TrackerState, ts: int): int
  {
    LiveWait(st.live, ts) + SumWaitTime(st.finished)
  }

  /** The empirical hazard rate dt·|finished| / time at risk; a zero time at
      risk (Java's NaN or infinity) gives None. */
  function Intensity(st: TrackerState, dt: int, ts: int): Option<real>
  {
    var atRisk := TimeAtRisk(st, ts);
    if atRisk == 0 then None else Some((dt as real) * (|st.finished| as real) / (atRisk as real))
  }

  // ---------------------------------------------------------------------
  // The tracker object

  class EmpiricalIntensityEstimator {
    const spread: real
    const side: Side
    const dt: int
    var liveTrackers: seq<LimitOrderTracker>
    var liveTrackersStartTimeSum: int
    var finishedTrackers: seq<FinishedTracker>
    var finishedTrackersWaitTimeSum: int

    /** The running sums equal the sums over the lists they summarise. */
    ghost predicate Valid()
      reads this
    {
      && liveTrackersStartTimeSum == SumStartTs(liveTrackers)
      && finishedTrackersWaitTimeSum == SumWaitTime(finishedTrackers)
    }

    function State(): TrackerState
      reads this
    {
      TrackerState(liveTrackers, finishedTrackers)
    }

    /** The side is passed in (the ladder derives it from its step). */
    constructor (spread: real, side: Side, dt: int)
      ensures Valid()
      ensures this.spread == spread && this.side == side && this.dt == dt
      ensures State() == TrackerState([], [])
    {
      this.spread := spread;
      this.side := side;
      this.dt := dt;
      liveTrackers := [];
      liveTrackersStartTimeSum := 0;
      finishedTrackers := [];
      finishedTrackersWaitTimeSum := 0;
    }

    /** One pass over the live list through a cursor: an expired tracker is
        removed, a filled one is removed and recorded as finished, any other
        is stepped over; then one new tracker is added at the end. */
    method OnTick(refPrice: real, fillPrice: real, ts: int, windowStart: int)
      requires Valid()
      modifies this
      ensures Valid()
      ensures State() == AfterTick(old(State()), side, spread, refPrice, fillPrice, ts, windowStart)
      ensures liveTrackers[|liveTrackers| - 1] == LimitOrderTracker(ts, refPrice + spread)
    {
      SweepLive(fillPrice, ts, windowStart);
      var added := LimitOrderTracker(ts, refPrice + spread);
      SumStartTsSnoc(liveTrackers, added);
      liveTrackers := liveTrackers + [added];
      liveTrackersStartTimeSum := liveTrackersStartTimeSum + ts;
    }

    /** The iterator loop of the tick. The list iterator is the pair of the
        trackers before its cursor (`done`) and those after it (`rest`):
        `next()` takes the head of `rest`, `remove()` drops it, and stepping
        on moves it into `done`. The loop works on copies of the lists and
        sums and stores them back when it ends. */
    method SweepLive(fillPrice: real, ts: int, windowStart: int)
      requires Valid()
      modifies this
      ensures Valid()
      ensures liveTrackers == Survivors(old(liveTrackers), side, fillPrice, windowStart)
      ensures finishedTrackers == old(finishedTrackers) + NewlyFinished(old(liveTrackers), side, fillPrice, ts, windowStart)
    {
      ghost var live0 := liveTrackers;
      ghost var finished0 := finishedTrackers;
      var done, rest, liveSum := [], liveTrackers, liveTrackersStartTimeSum;
      var finished, finishedSum := finishedTrackers, finishedTrackersWaitTimeSum;
      ghost var seen := 0;
      ghost var newly := [];
      while rest != []
        invariant 0 <= seen <= |live0| && rest == live0[seen..]
        invariant done == SurvivorsUpTo(live0, seen, side, fillPrice, windowStart)
        invariant newly == NewlyFinishedUpTo(live0, seen, side, fillPrice, ts, windowStart)
        invariant finished == finished0 + newly
        invariant liveSum + SumStartTs(live0[..seen]) == SumStartTs(live0) + SumStartTs(done)
        invariant finishedSum == SumWaitTime(finished0) + SumWaitTime(newly)
        invariant unchanged(this)
        decreases |rest|
      {
        NextOf(live0, seen);
        SumStartTsPrefixStep(live0, seen);
        var tr := rest[0];
        rest := rest[1..];
        if windowStart > tr.startTs {
          liveSum := liveSum - tr.startTs;
        } else if IsOrderFilled(side, fillPrice, tr.orderPrice) {
          var duration := ts - tr.startTs;
          liveSum := liveSum - tr.startTs;
          SumWaitTimeSnoc(newly, Record(tr, ts));
          finished := finished + [FinishedTracker(tr.startTs, duration)];
          finishedSum := finishedSum + duration;
          newly := newly + [Record(tr, ts)];
        } else {
          SumStartTsSnoc(done, tr);
          done := done + [tr];
        }
        seen := seen + 1;
      }
      assert live0[..seen] == live0;
      SumWaitTimeAppend(finished0, newly);
      liveTrackers, liveTrackersStartTimeSum := done, liveSum;
      finishedTrackers, finishedTrackersWaitTimeSum := finished, finishedSum;
    }

    /** The iterator loop over the finished list: records that started
        before the window are dropped, the rest stay in order. */
    method PurgeFinished(windowStart: int)
      requires Valid()
      modifies this
      ensures Valid()
      ensures finishedTrackers == FinishedInWindow(old(finishedTrackers), windowStart)
      ensures liveTrackers == old(liveTrackers)
    {
      ghost var finished0 := finishedTrackers;
      var done, rest, sum := [], finishedTrackers, finishedTrackersWaitTimeSum;
      ghost var seen := 0;
      while rest != []
        invariant 0 <= seen <= |finished0| && rest == finished0[seen..]
        invariant done == FinishedInWindowUpTo(finished0, seen, windowStart)
        invariant sum + SumWaitTime(finished0[..seen]) == SumWaitTime(finished0) + SumWaitTime(done)
        invariant unchanged(this)
        decreases |rest|
      {
        NextOf(finished0, seen);
        SumWaitTimePrefixStep(finished0, seen);
        var tr := rest[0];
        rest := rest[1..];
        if tr.startTs < windowStart {
          sum := sum - tr.waitTime;
        } else {
          SumWaitTimeSnoc(done, tr);
          done := done + [tr];
        }
        seen := seen + 1;
      }
      assert finished0[..seen] == finished0;
      finishedTrackers, finishedTrackersWaitTimeSum := done, sum;
    }

    /** The iterator loop over the live list in the estimate: trackers that
        started before the window are dropped, the rest stay in order. */
    method PurgeLive(windowStart: int)
      requires Valid()
      modifies this
      ensures Valid()
      ensures liveTrackers == LiveInWindow(old(liveTrackers), windowStart)
      ensures finishedTrackers == old(finishedTrackers)
    {
      ghost var live0 := liveTrackers;
      var done, rest, liveSum := [], liveTrackers, liveTrackersStartTimeSum;
      ghost var seen := 0;
      while rest != []
        invariant 0 <= seen <= |live0| && rest == live0[seen..]
        invariant done == LiveInWindowUpTo(live0, seen, windowStart)
        invariant liveSum + SumStartTs(live0[..seen]) == SumStartTs(live0) + SumStartTs(done)
        invariant unchanged(this)
        decreases |rest|
      {
        NextOf(live0, seen);
        SumStartTsPrefixStep(live0, seen);
        var tr := rest[0];
        rest := rest[1..];
        if windowStart > tr.startTs {
          liveSum := liveSum - tr.startTs;
        } else {
          SumStartTsSnoc(done, tr);
          done := done + [tr];
        }
        seen := seen + 1;
      }
      assert live0[..seen] == live0;
      liveTrackers, liveTrackersStartTimeSum := done, liveSum;
    }

    /** Purges the window and returns dt·|finished| / (|live|·ts − Σ live
        start times + Σ finished wait times), None when that denominator is
        zero. `getLast()` throws on an empty live list. */
    method EstimateIntensity(ts: int, windowStart: int) returns (intensity: Option<real>)
      requires Valid() && |liveTrackers| > 0
      modifies this
      ensures Valid()
      ensures State() == AfterPurge(old(State()), ts, windowStart)
      ensures intensity == Intensity(State(), dt, ts)
    {
      ghost var st0 := State();
      PurgeFinished(windowStart);
      if ts != liveTrackers[|liveTrackers| - 1].startTs {
        PurgeLive(windowStart);
      }
      assert State() == AfterPurge(st0, ts, windowStart);
      var denominator := |liveTrackers| * ts - liveTrackersStartTimeSum + finishedTrackersWaitTimeSum;
      LiveWaitBySums(liveTrackers, ts);
      assert denominator == TimeAtRisk(State(), ts);
      if denominator == 0 {
        intensity := None;
      } else {
        intensity := Some((dt as real) * (|finishedTrackers| as real) / (denominator as real));
        assert intensity.value == Intensity(State(), dt, ts).value;
      }
    }
  }

  // ---------------------------------------------------------------------
  // One step of a list iterator

  /** `next()` on the unprocessed part `s[i..]` yields `s[i]` and leaves
      `s[i + 1..]`. */
  lemma NextOf<T>(s: seq<T>, i: nat)
    requires i < |s|
    ensures s[i..] != [] && s[i..][0] == s[i] && s[i..][1..] == s[i + 1..]
  {
  }

  // ---------------------------------------------------------------------
  // Running sums

  lemma SumStartTsPrefixStep(s: seq<LimitOrderTracker>, i: nat)
    requires i < |s|
    ensures SumStartTs(s[..i + 1]) == SumStartTs(s[..i]) + s[i].startTs
  {
    assert s[..i + 1][..i] == s[..i];
  }

  lemma SumStartTsSnoc(s: seq<LimitOrderTracker>, x: LimitOrderTracker)
    ensures SumStartTs(s + [x]) == SumStartTs(s) + x.startTs
  {
    assert (s + [x])[..|s|] == s;
  }

  lemma SumWaitTimePrefixStep(s: seq<FinishedTracker>, i: nat)
    requires i < |s|
    ensures SumWaitTime(s[..i + 1]) == SumWaitTime(s[..i]) + s[i].waitTime
  {
    assert s[..i + 1][..i] == s[..i];
  }

  lemma SumWaitTimeSnoc(s: seq<FinishedTracker>, x: FinishedTracker)
    ensures SumWaitTime(s + [x]) == SumWaitTime(s) + x.waitTime
  {
    assert (s + [x])[..|s|] == s;
  }

  lemma {:induction false} SumWaitTimeAppend(a: seq<FinishedTracker>, b: seq<FinishedTracker>)
    ensures SumWaitTime(a + b) == SumWaitTime(a) + SumWaitTime(b)
  {
    if b != [] {
      assert (a + b)[..|a + b| - 1] == a + b[..|b| - 1];
      SumWaitTimeAppend(a, b[..|b| - 1]);
    } else {
      assert a + b == a;
    }
  }

  /** The denominator identity: with the start-time sum kept exactly, the
      live orders' total wait is |live|·ts − Σ start times. */
  lemma {:induction false} LiveWaitBySums(live: seq<LimitOrderTracker>, ts: int)
    ensures LiveWait(live, ts) == |live| * ts - SumStartTs(live)
  {
    if live != [] {
      LiveWaitBySums(live[..|live| - 1], ts);
    }
  }
}

/** What one tick and one purge do to the lists of a level: each old live
    tracker meets exactly one fate, the counts are conserved, the survivors
    and records are exactly the kept and filled trackers, a purge leaves only
    the window, and the time at risk stays non-negative. */
module TrackerProperties {
  import opened Wrappers
  import opened EmpiricalIntensity

  // ---------------------------------------------------------------------
  // onTick: counts

  lemma {:induction false} FateCountsUpTo(live: seq<LimitOrderTracker>, n: nat, side: Side, fillPrice: real, ts: int, windowStart: int)
    requires n <= |live|
    ensures |SurvivorsUpTo(live, n, side, fillPrice, windowStart)| == CountFateUpTo(live, n, Kept, side, fillPrice, windowStart)
    ensures |NewlyFinishedUpTo(live, n, side, fillPrice, ts, windowStart)| == CountFateUpTo(live, n, Filled, side, fillPrice, windowStart)
    ensures CountFateUpTo(live, n, Evicted, side, fillPrice, windowStart)
            + CountFateUpTo(live, n, Filled, side, fillPrice, windowStart)
            + CountFateUpTo(live, n, Kept, side, fillPrice, windowStart) == n
  {
    if n > 0 {
      FateCountsUpTo(live, n - 1, side, fillPrice, ts, windowStart);
    }
  }

  /** Conservation on a tick: every old live tracker is evicted, filled or
      kept; the live list loses the evicted and filled ones and gains one;
      the finished list grows by the filled ones, appended after the old
      records; the new tracker is last. */
  lemma TickConservation(st: TrackerState, side: Side, spread: real, refPrice: real, fillPrice: real, ts: int, windowStart: int)
    ensures var st' := AfterTick(st, side, spread, refPrice, fillPrice, ts, windowStart);
            && |st'.live| + CountFate(st.live, Evicted, side, fillPrice, windowStart)
               + CountFate(st.live, Filled, side, fillPrice, windowStart) == |st.live| + 1
            && |st'.finished| == |st.finished| + CountFate(st.live, Filled, side, fillPrice, windowStart)
            && st'.finished[..|st.finished|] == st.finished
            && st'.live[|st'.live| - 1] == LimitOrderTracker(ts, refPrice + spread)
  {
    FateCountsUpTo(st.live, |st.live|, side, fillPrice, ts, windowStart);
    var st' := AfterTick(st, side, spread, refPrice, fillPrice, ts, windowStart);
    assert st'.finished[..|st.finished|] == st.finished;
  }

  // ---------------------------------------------------------------------
  // onTick: who survives, who is recorded

  lemma {:induction false} SurvivorsUpToMembers(live: seq<LimitOrderTracker>, n: nat, side: Side, fillPrice: real, windowStart: int)
    requires n <= |live|
    ensures forall t :: t in SurvivorsUpTo(live, n, side, fillPrice, windowStart)
                        <==> t in live[..n] && FateOf(t, side, fillPrice, windowStart) == Kept
  {
    if n > 0 {
      SurvivorsUpToMembers(live, n - 1, side, fillPrice, windowStart);
      assert live[..n] == live[..n - 1] + [live[n - 1]];
    }
  }

  /** The survivors of a tick are exactly the old live trackers that are
      neither expired nor filled. */
  lemma SurvivorsExactly(live: seq<LimitOrderTracker>, side: Side, fillPrice: real, windowStart: int)
    ensures forall t :: t in Survivors(live, side, fillPrice, windowStart)
                        <==> t in live && windowStart <= t.startTs && !IsOrderFilled(side, fillPrice, t.orderPrice)
  {
    SurvivorsUpToMembers(live, |live|, side, fillPrice, windowStart);
    assert live[..|live|] == live;
  }

  lemma {:induction false} NewlyFinishedUpToMembers(live: seq<LimitOrderTracker>, n: nat, side: Side, fillPrice: real, ts: int, windowStart: int)
    requires n <= |live|
    ensures forall f :: f in NewlyFinishedUpTo(live, n, side, fillPrice, ts, windowStart)
                        <==> exists t :: t in live[..n] && FateOf(t, side, fillPrice, windowStart) == Filled && f == Record(t, ts)
  {
    if n > 0 {
      NewlyFinishedUpToMembers(live, n - 1, side, fillPrice, ts, windowStart);
      assert live[..n] == live[..n - 1] + [live[n - 1]];
    }
  }

  /** The records a tick appends are exactly those of the old live trackers
      that are inside the window and filled: start time kept, wait time
      `ts - startTs`. An expired tracker is never recorded. */
  lemma NewlyFinishedExactly(live: seq<LimitOrderTracker>, side: Side, fillPrice: real, ts: int, windowStart: int)
    ensures forall f :: f in NewlyFinished(live, side, fillPrice, ts, windowStart)
                        <==> exists t :: t in live && windowStart <= t.startTs && IsOrderFilled(side, fillPrice, t.orderPrice)
                                         && f == FinishedTracker(t.startTs, ts - t.startTs)
    ensures forall f :: f in NewlyFinished(live, side, fillPrice, ts, windowStart)
                        ==> windowStart <= f.startTs && f.waitTime == ts - f.startTs
  {
    NewlyFinishedUpToMembers(live, |live|, side, fillPrice, ts, windowStart);
    assert live[..|live|] == live;
  }

  /** After a tick whose window starts no later than the tick, no live
      tracker is older than the window. */
  lemma TickKeepsWindow(st: TrackerState, side: Side, spread: real, refPrice: real, fillPrice: real, ts: int, windowStart: int)
    requires windowStart <= ts
    ensures forall t :: t in AfterTick(st, side, spread, refPrice, fillPrice, ts, windowStart).live ==> windowStart <= t.startTs
  {
    SurvivorsExactly(st.live, side, fillPrice, windowStart);
  }

  // ---------------------------------------------------------------------
  // estimateIntensity: the purge

  lemma {:induction false} LiveInWindowUpToMembers(live: seq<LimitOrderTracker>, n: nat, windowStart: int)
    requires n <= |live|
    ensures forall t :: t in LiveInWindowUpTo(live, n, windowStart) <==> t in live[..n] && windowStart <= t.startTs
  {
    if n > 0 {
      LiveInWindowUpToMembers(live, n - 1, windowStart);
      assert live[..n] == live[..n - 1] + [live[n - 1]];
    }
  }

  lemma {:induction false} FinishedInWindowUpToMembers(finished: seq<FinishedTracker>, n: nat, windowStart: int)
    requires n <= |finished|
    ensures forall f :: f in FinishedInWindowUpTo(finished, n, windowStart) <==> f in finished[..n] && windowStart <= f.startTs
  {
    if n > 0 {
      FinishedInWindowUpToMembers(finished, n - 1, windowStart);
      assert finished[..n] == finished[..n - 1] + [finished[n - 1]];
    }
  }

  /** A purged list holds exactly the trackers of the window. */
  lemma InWindowExactly(st: TrackerState, windowStart: int)
    ensures forall t :: t in LiveInWindow(st.live, windowStart) <==> t in st.live && windowStart <= t.startTs
    ensures forall f :: f in FinishedInWindow(st.finished, windowStart) <==> f in st.finished && windowStart <= f.startTs
  {
    LiveInWindowUpToMembers(st.live, |st.live|, windowStart);
    assert st.live[..|st.live|] == st.live;
    FinishedInWindowUpToMembers(st.finished, |st.finished|, windowStart);
    assert st.finished[..|st.finished|] == st.finished;
  }

  lemma {:induction false} LiveInWindowUpToKeepsAll(live: seq<LimitOrderTracker>, n: nat, windowStart: int)
    requires n <= |live|
    requires forall t :: t in live ==> windowStart <= t.startTs
    ensures LiveInWindowUpTo(live, n, windowStart) == live[..n]
  {
    if n > 0 {
      LiveInWindowUpToKeepsAll(live, n - 1, windowStart);
      assert live[n - 1] in live;
      assert live[..n] == live[..n - 1] + [live[n - 1]];
    }
  }

  lemma {:induction false} FinishedInWindowUpToKeepsAll(finished: seq<FinishedTracker>, n: nat, windowStart: int)
    requires n <= |finished|
    requires forall f :: f in finished ==> windowStart <= f.startTs
    ensures FinishedInWindowUpTo(finished, n, windowStart) == finished[..n]
  {
    if n > 0 {
      FinishedInWindowUpToKeepsAll(finished, n - 1, windowStart);
      assert finished[n - 1] in finished;
      assert finished[..n] == finished[..n - 1] + [finished[n - 1]];
    }
  }

  /** The purge changes nothing on lists already inside the window. */
  lemma PurgeKeepsWindow(st: TrackerState, windowStart: int)
    requires forall t :: t in st.live ==> windowStart <= t.startTs
    requires forall f :: f in st.finished ==> windowStart <= f.startTs
    ensures LiveInWindow(st.live, windowStart) == st.live
    ensures FinishedInWindow(st.finished, windowStart) == st.finished
  {
    LiveInWindowUpToKeepsAll(st.live, |st.live|, windowStart);
    assert st.live[..|st.live|] == st.live;
    FinishedInWindowUpToKeepsAll(st.finished, |st.finished|, windowStart);
    assert st.finished[..|st.finished|] == st.finished;
  }

  /** Purging twice with the same window start is purging once. */
  lemma PurgeIdempotent(st: TrackerState, windowStart: int)
    ensures LiveInWindow(LiveInWindow(st.live, windowStart), windowStart) == LiveInWindow(st.live, windowStart)
    ensures FinishedInWindow(FinishedInWindow(st.finished, windowStart), windowStart) == FinishedInWindow(st.finished, windowStart)
  {
    InWindowExactly(st, windowStart);
    PurgeKeepsWindow(TrackerState(LiveInWindow(st.live, windowStart), FinishedInWindow(st.finished, windowStart)), windowStart);
  }

  /** After a purge no finished tracker is older than the window; the live
      list is purged as well when time moved on since its newest tracker,
      and is left as it was otherwise. */
  lemma PurgeLeavesWindow(st: TrackerState, ts: int, windowStart: int)
    requires |st.live| > 0
    ensures forall f :: f in AfterPurge(st, ts, windowStart).finished ==> windowStart <= f.startTs
    ensures ts != st.live[|st.live| - 1].startTs ==>
              forall t :: t in AfterPurge(st, ts, windowStart).live ==> windowStart <= t.startTs
    ensures ts == st.live[|st.live| - 1].startTs ==> AfterPurge(st, ts, windowStart).live == st.live
  {
    InWindowExactly(st, windowStart);
  }

  /** Skipping the live purge is sound right after a tick at the same time
      stamp and window start: the purge would change nothing. */
  lemma PurgeSkipAfterTick(st: TrackerState, side: Side, spread: real, refPrice: real, fillPrice: real, ts: int, windowStart: int)
    requires windowStart <= ts
    ensures var st' := AfterTick(st, side, spread, refPrice, fillPrice, ts, windowStart);
            && st'.live[|st'.live| - 1].startTs == ts
            && LiveInWindow(st'.live, windowStart) == st'.live
            && AfterPurge(st', ts, windowStart) == TrackerState(LiveInWindow(st'.live, windowStart), FinishedInWindow(st'.finished, windowStart))
  {
    var st' := AfterTick(st, side, spread, refPrice, fillPrice, ts, windowStart);
    TickKeepsWindow(st, side, spread, refPrice, fillPrice, ts, windowStart);
    LiveInWindowUpToKeepsAll(st'.live, |st'.live|, windowStart);
    assert st'.live[..|st'.live|] == st'.live;
  }

  // ---------------------------------------------------------------------
  // The time at risk and the intensity

  /** A state seen at time `now`: no live order starts in the future and no
      wait time is negative. */
  ghost predicate Sane(st: TrackerState, now: int)
  {
    && (forall t :: t in st.live ==> t.startTs <= now)
    && (forall f :: f in st.finished ==> 0 <= f.waitTime)
  }

  /** Ticks with non-decreasing time stamps keep a state sane. */
  lemma TickKeepsSane(st: TrackerState, now: int, side: Side, spread: real, refPrice: real, fillPrice: real, ts: int, windowStart: int)
    requires Sane(st, now) && now <= ts
    ensures Sane(AfterTick(st, side, spread, refPrice, fillPrice, ts, windowStart), ts)
  {
    SurvivorsExactly(st.live, side, fillPrice, windowStart);
    NewlyFinishedExactly(st.live, side, fillPrice, ts, windowStart);
  }

  /** A purge keeps a state sane. */
  lemma PurgeKeepsSane(st: TrackerState, now: int, ts: int, windowStart: int)
    requires |st.live| > 0 && Sane(st, now)
    ensures Sane(AfterPurge(st, ts, windowStart), now)
  {
    InWindowExactly(st, windowStart);
  }

  lemma {:induction false} LiveWaitNonNegative(live: seq<LimitOrderTracker>, ts: int)
    requires forall t :: t in live ==> t.startTs <= ts
    ensures LiveWait(live, ts) >= 0
  {
    if live != [] {
      assert live[|live| - 1] in live;
      assert forall t :: t in live[..|live| - 1] ==> t in live;
      LiveWaitNonNegative(live[..|live| - 1], ts);
    }
  }

  lemma {:induction false} SumWaitTimeNonNegative(finished: seq<FinishedTracker>)
    requires forall f :: f in finished ==> 0 <= f.waitTime
    ensures SumWaitTime(finished) >= 0
  {
    if finished != [] {
      assert finished[|finished| - 1] in finished;
      assert forall f :: f in finished[..|finished| - 1] ==> f in finished;
      SumWaitTimeNonNegative(finished[..|finished| - 1]);
    }
  }

  /** In a sane state the time at risk is not negative, so a defined
      estimate with a non-negative `dt` is not negative; the estimate is
      undefined exactly when the time at risk is zero. */
  lemma IntensityNonNegative(st: TrackerState, dt: int, ts: int)
    requires Sane(st, ts) && dt >= 0
    ensures TimeAtRisk(st, ts) >= 0
    ensures Intensity(st, dt, ts).None? <==> TimeAtRisk(st, ts) == 0
    ensures Intensity(st, dt, ts).Some? ==> Intensity(st, dt, ts).value >= 0.0
  {
    LiveWaitNonNegative(st.live, ts);
    SumWaitTimeNonNegative(st.finished);
  }
}

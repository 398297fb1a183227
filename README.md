# EIE execution-intensity estimator, modelled in Dafny

EIE (package `org.github.im1235.eie`) estimates how often limit orders get filled at a given distance from the mid price. It fits the model λ(δ) = A·e^(−kδ) separately for buy and for sell limit orders.

This project models the synchronous estimation pipeline in three layers.

1. **The per-spread tracker** (`EmpiricalIntensityEstimator`, module `EmpiricalIntensity`).
   - On every quote, each level places one simulated limit order at the mid price plus its spread.
   - That tick also evicts orders older than the sliding window and moves filled orders into a list of {start time, wait time} records.
   - Two running sums (live start times, finished wait times) are kept equal to the sums over the lists.
   - `estimateIntensity` purges the window and returns the empirical hazard rate dt·|finished| / (time at risk).
   - The class keeps the source's two lists (as `seq` fields) and its two running sums.
   - Its methods are loops over a list iterator, proved against the functions `AfterTick`, `AfterPurge` and `Intensity`.
   - Module `TrackerProperties` proves what a tick and a purge do:
     - each old order meets exactly one fate;
     - the counts are conserved;
     - the survivors and the new records are exactly the kept and the filled orders;
     - a purge leaves exactly the window and is idempotent;
     - skipping the live purge is sound right after a tick;
     - the time at risk is not negative.
2. **The ladder and the estimator.**
   - `SpreadIntensityCurve` (module `SpreadCurve`) owns N trackers at the spreads i·step. It fans every tick out to them and fills one reused intensity array, which it hands to an A/k solver.
   - `IntensityEstimator` (module `Estimator`) owns a sell ladder (+step, fed the bid) and a buy ladder (−step, fed the ask). It runs the warm-up state machine `initDoneTS`/`isInitializing`/`isInitialized` and builds the `IntensityInfo` snapshot from the two ladders' [A, k] answers.
   - Both are classes. Their methods state the new level states as functions of the old ones (`TickAll`, `PurgeAll`, `IntensitiesOf`) and the answer as the solver's function of the new intensities.
3. **The A/k algebra.**
   - `IntensityInfo` and its static `getIntensity`/`getSpread` (module `IntensityModel`). The round trips between them are proved.
   - `AbstractAkSolver` stores absolute spreads (module `AkSpreads`).
   - `AkMultiCurveSolver` solves every pair of curve points for (k, A) and averages them (module `AkMultiCurve`). It is a class with the two reused `array` buffers and the nested loop. The proofs show:
     - the loop fills exactly the N(N−1)/2 slots, visiting every pair i < j once, in lexicographic order;
     - noiseless data gives back exactly (A, k).
   - `AkRegressionSolver` (module `AkRegression`) fits ln λ on δ by least squares. Exact recovery is proved for it too.
   - `AkSolverFactory` is the enum dispatch (module `AkFactory`).

`Math.exp` and `Math.log` have no counterpart in Dafny.
- Every computation that needs them takes a value `m: ExpLn` holding the pair of functions.
- The predicate `Lawful(m)` states the laws the proofs use: ln(e^x) = x, e^(ln y) = y for y > 0, e^(a+b) = e^a·e^b, and e^x > 0.
- The real exponential and logarithm satisfy these laws.

Prices, spreads and intensities are exact reals. Time stamps are unbounded integers.

A double result that is NaN or infinite is `None` of an `Option`. This covers:
- a zero time at risk;
- the log of a non-positive ratio;
- two equal spreads;
- a regression without a fit.

The snapshot `IntensityInfo` holds each of its four parameters as its own `Option`, as Java holds four independent doubles. A NaN estimate on one side leaves the other side's getters answering.

Documented behaviour that differs from the code; the model follows the code:
- The `SpreadIntensityCurve` constructor's documentation (`SpreadIntensityCurve.java:25`) describes the levels as (1, 2, …, nSpreads)·step. The code (`SpreadIntensityCurve.java:35`) puts level i at i·step for i = 0 … nSpreads−1, which starts at the mid. The `IntensityEstimator` documentation (`IntensityEstimator.java:24`), (0, 1, …, nSpreads−1)·±step, agrees with the code.
- `SpreadIntensityCurve.java:36` calls a three-argument tracker constructor (spread, `Math.signum(spreadStep)`, dt). The tracker class has only a two-argument constructor (`EmpiricalIntensityEstimator.java:72-92`), which chooses the fill rule by `spread > 0`. The model gives the tracker its side explicitly: the sign of the ladder's step, which is what the three-argument call evidently intends. See "Findings".

## Model

| member | source | states |
|---|---|---|
| EmpiricalIntensity.EmpiricalIntensityEstimator.constructor | src/main/java/org/github/im1235/eie/calibration/EmpiricalIntensityEstimator.java:72-92 | a new tracker keeps its spread, side and dt, has empty live and finished lists, and its running sums equal the (empty) sums |
| EmpiricalIntensity.EmpiricalIntensityEstimator.OnTick | src/main/java/org/github/im1235/eie/calibration/EmpiricalIntensityEstimator.java:101-132 | the running sums stay equal to the sums over the lists; the new state is `AfterTick` of the old one; the last live tracker is the new order (ts, refPrice + spread) |
| EmpiricalIntensity.EmpiricalIntensityEstimator.SweepLive | src/main/java/org/github/im1235/eie/calibration/EmpiricalIntensityEstimator.java:103-127 | the iterator loop leaves exactly the kept trackers in their order, appends the records of the filled ones after the old records, and keeps both running sums exact |
| EmpiricalIntensity.EmpiricalIntensityEstimator.PurgeFinished | src/main/java/org/github/im1235/eie/calibration/EmpiricalIntensityEstimator.java:143-152 | finished records that started before the window are dropped and the rest stay in order; the wait-time sum stays exact; the live list is untouched |
| EmpiricalIntensity.EmpiricalIntensityEstimator.PurgeLive | src/main/java/org/github/im1235/eie/calibration/EmpiricalIntensityEstimator.java:155-167 | live trackers that started before the window are dropped and the rest stay in order; the start-time sum stays exact; the finished list is untouched |
| EmpiricalIntensity.EmpiricalIntensityEstimator.EstimateIntensity | src/main/java/org/github/im1235/eie/calibration/EmpiricalIntensityEstimator.java:140-172 | with a non-empty live list: the new state is the purge `AfterPurge` (finished records always purged, live ones only when ts differs from the newest tracker's start); the sums stay exact; the result is dt·\|finished\| / (time at risk), None when that is 0 |
| EmpiricalIntensity.LiveWaitBySums | src/main/java/org/github/im1235/eie/calibration/EmpiricalIntensityEstimator.java:49-51 | the live orders' total wait Σ(ts − startTs) equals \|live\|·ts − Σ startTs, the identity behind the denominator |
| EmpiricalIntensity.SumWaitTimeAppend | src/main/java/org/github/im1235/eie/calibration/EmpiricalIntensityEstimator.java:124-125 | the wait-time sum of appended records is the old sum plus the sum of the new ones |
| TrackerProperties.FateCountsUpTo | src/main/java/org/github/im1235/eie/calibration/EmpiricalIntensityEstimator.java:105-127 | the evicted, filled and kept counts of the scanned trackers add up to their number and equal the lengths of the survivor and record lists |
| TrackerProperties.TickConservation | src/main/java/org/github/im1235/eie/calibration/EmpiricalIntensityEstimator.java:105-131 | old live count + 1 = new live count + evicted + filled; the finished list grows by exactly the filled count, with the old records as its prefix; the new tracker is last |
| TrackerProperties.SurvivorsExactly | src/main/java/org/github/im1235/eie/calibration/EmpiricalIntensityEstimator.java:109-127 | a tracker survives a tick if and only if it was live, is not older than the window and is not filled |
| TrackerProperties.NewlyFinishedExactly | src/main/java/org/github/im1235/eie/calibration/EmpiricalIntensityEstimator.java:109-126 | a record is appended if and only if it comes from a live tracker inside the window that the fill rule fills, with wait ts − startTs; an expired tracker is never recorded |
| TrackerProperties.TickKeepsWindow | src/main/java/org/github/im1235/eie/calibration/EmpiricalIntensityEstimator.java:109-131 | after a tick whose window starts no later than the tick, no live tracker is older than the window |
| TrackerProperties.InWindowExactly | src/main/java/org/github/im1235/eie/calibration/EmpiricalIntensityEstimator.java:143-167 | a purged list holds exactly the elements of the old list whose start is inside the window |
| TrackerProperties.PurgeKeepsWindow | src/main/java/org/github/im1235/eie/calibration/EmpiricalIntensityEstimator.java:143-167 | the purge leaves lists that are already inside the window unchanged |
| TrackerProperties.PurgeIdempotent | src/main/java/org/github/im1235/eie/calibration/EmpiricalIntensityEstimator.java:143-167 | purging twice with the same window start is the same as purging once |
| TrackerProperties.PurgeLeavesWindow | src/main/java/org/github/im1235/eie/calibration/EmpiricalIntensityEstimator.java:143-167 | after the purge no finished record is older than the window; the live list is purged as well when ts differs from the newest tracker's start and is unchanged otherwise |
| TrackerProperties.PurgeSkipAfterTick | src/main/java/org/github/im1235/eie/calibration/EmpiricalIntensityEstimator.java:155-167 | right after a tick at ts, the newest tracker starts at ts and the live list is already inside the window, so skipping the live purge changes nothing |
| TrackerProperties.TickKeepsSane | src/main/java/org/github/im1235/eie/calibration/EmpiricalIntensityEstimator.java:101-132 | ticks with non-decreasing time stamps keep every live start at or before the clock and every wait time non-negative |
| TrackerProperties.PurgeKeepsSane | src/main/java/org/github/im1235/eie/calibration/EmpiricalIntensityEstimator.java:140-167 | a purge keeps that sanity |
| TrackerProperties.LiveWaitNonNegative | src/main/java/org/github/im1235/eie/calibration/EmpiricalIntensityEstimator.java:49-51 | orders that started no later than ts have a non-negative total wait |
| TrackerProperties.SumWaitTimeNonNegative | src/main/java/org/github/im1235/eie/calibration/EmpiricalIntensityEstimator.java:62-65 | records with non-negative waits have a non-negative wait-time sum |
| TrackerProperties.IntensityNonNegative | src/main/java/org/github/im1235/eie/calibration/EmpiricalIntensityEstimator.java:169-170 | in a sane state the time at risk is non-negative; the estimate is undefined if and only if it is zero; a defined estimate with dt ≥ 0 is non-negative |
| SpreadCurve.Ladder | src/main/java/org/github/im1235/eie/calibration/SpreadIntensityCurve.java:31-35 | the spread specification has exactly nSpreads entries, entry i being i·step |
| SpreadCurve.LadderSteps | src/main/java/org/github/im1235/eie/calibration/SpreadIntensityCurve.java:34-35 | level 0 sits at spread 0 and each level is exactly one step further out than the previous one |
| SpreadCurve.BothSidesSolveSameSpreads | src/main/java/org/github/im1235/eie/calibration/AbstractAkSolver.java:15-17 | the buy ladder (−step) and the sell ladder (+step) hand their solvers the same absolute spread specification |
| SpreadCurve.SideAsWrittenDiffers | src/main/java/org/github/im1235/eie/calibration/SpreadIntensityCurve.java:36 | choosing the fill rule by each level's own spread (the two-argument constructor) differs from the ladder's side if and only if the level is 0 and the step is positive |
| SpreadCurve.TickAllReady | src/main/java/org/github/im1235/eie/calibration/SpreadIntensityCurve.java:49-51 | after a ladder tick every level has a live tracker, its newest quoted at the reference price plus that level's spread |
| SpreadCurve.SpreadIntensityCurve.constructor | src/main/java/org/github/im1235/eie/calibration/SpreadIntensityCurve.java:29-40 | nSpreads distinct new trackers, level i at spread i·step with the side of the step's sign and the shared dt; an intensity array of the same length; a solver of the factory's type over the absolute ladder spreads |
| SpreadCurve.SpreadIntensityCurve.OnTick | src/main/java/org/github/im1235/eie/calibration/SpreadIntensityCurve.java:49-51 | every level gets the same (refPrice, fillPrice, ts, windowStart) and each level's new state is its own `AfterTick`, independent of the others |
| SpreadCurve.SpreadIntensityCurve.EstimateIntensities | src/main/java/org/github/im1235/eie/calibration/SpreadIntensityCurve.java:83-87 | each level is purged, and slot i of the same intensity array receives level i's new estimate |
| SpreadCurve.SpreadIntensityCurve.EstimateAk | src/main/java/org/github/im1235/eie/calibration/SpreadIntensityCurve.java:83-89 | the levels are purged, the array holds their estimates, and the result is exactly the solver's answer for that array |
| Estimator.InitTrace | src/main/java/org/github/im1235/eie/IntensityEstimator.java:83-92 | after the ticks tss, warm-up ends at tss[0] + w; the estimator is initialized if and only if a later tick reached that time; and isInitializing is always the negation of isInitialized |
| Estimator.FirstTickNotReady | src/main/java/org/github/im1235/eie/IntensityEstimator.java:84-87 | the first tick sets initDoneTS to ts + w and leaves the estimator not initialized |
| Estimator.InitializedIsFinal | src/main/java/org/github/im1235/eie/IntensityEstimator.java:43-45 | once initialized, further ticks never change the warm-up fields again |
| Estimator.InfoRecovers | src/main/java/org/github/im1235/eie/IntensityEstimator.java:99-105 | intensities on each side's exact curve give back a snapshot whose four parameters are exactly those finite values, whichever solvers the ladders use |
| Estimator.IntensityEstimator.constructor | src/main/java/org/github/im1235/eie/IntensityEstimator.java:29-33 | warm-up starts at (null, initializing, not initialized); the two ladders share nothing, have nSpreads levels and dt, and their solvers see the same spreads |
| Estimator.IntensityEstimator.NewLadders | src/main/java/org/github/im1235/eie/IntensityEstimator.java:31-32 | the sell ladder is built with +spreadStep and the buy ladder with −spreadStep, disjoint, with the same level count, dt and solver spreads |
| Estimator.IntensityEstimator.Init | src/main/java/org/github/im1235/eie/IntensityEstimator.java:83-92 | the warm-up fields become `InitStep` of the old ones, and the ladders are untouched |
| Estimator.IntensityEstimator.OnTick | src/main/java/org/github/im1235/eie/IntensityEstimator.java:42-51 | the warm-up step; the sell ladder ticks with (mid, bid, ts, ts − w) and the buy ladder with (mid, ask, ts, ts − w); the answer is whether warm-up is over |
| Estimator.IntensityEstimator.TickSell | src/main/java/org/github/im1235/eie/IntensityEstimator.java:48 | the sell ladder ticks with the bid at the mid and window start ts − w; the buy ladder is unchanged |
| Estimator.IntensityEstimator.TickBuy | src/main/java/org/github/im1235/eie/IntensityEstimator.java:49 | the buy ladder ticks with the ask at the mid and window start ts − w; the sell ladder is unchanged |
| Estimator.IntensityEstimator.EstimateBuy | src/main/java/org/github/im1235/eie/IntensityEstimator.java:102 | the buy ladder is purged over [ts − w, ts]; its intensity array then holds the purged levels' estimates, and the answer is its solver's [A, k] for that array; the sell ladder and its array are unchanged |
| Estimator.IntensityEstimator.EstimateSell | src/main/java/org/github/im1235/eie/IntensityEstimator.java:103 | the sell ladder is purged over [ts − w, ts]; its intensity array then holds the purged levels' estimates, and the answer is its solver's [A, k] for that array; the buy ladder and its array are unchanged |
| Estimator.IntensityEstimator.Estimate | src/main/java/org/github/im1235/eie/IntensityEstimator.java:99-105 | both ladders are purged over [ts − w, ts]; each ladder's intensity array holds its levels' new estimates; the snapshot is always built, taking element 0 and 1 of the buy answer as buyA/buyK and of the sell answer as sellA/sellK, each defined or not on its own; the warm-up fields are unchanged |
| IntensityModel.GetSpread | src/main/java/org/github/im1235/eie/IntensityInfo.java:68-70 | −ln(λ/A)/k is defined if and only if A ≠ 0, k ≠ 0 and λ/A > 0 |
| IntensityModel.IntensityPositive | src/main/java/org/github/im1235/eie/IntensityInfo.java:56-58 | with A > 0 the model intensity is positive at every spread |
| IntensityModel.SpreadOfIntensity | src/test/java/org/github/im1235/eie/IntensityInfoTest.java:24-29 | getSpread(getIntensity(δ, A, k), A, k) = δ whenever A ≠ 0 and k ≠ 0 |
| IntensityModel.IntensityOfSpread | src/test/java/org/github/im1235/eie/IntensityInfoTest.java:17-22 | getIntensity(getSpread(λ, A, k), A, k) = λ whenever A ≠ 0, k ≠ 0 and λ/A > 0 |
| IntensityModel.IntensityOf | src/main/java/org/github/im1235/eie/IntensityInfo.java:31-37 | a getter's intensity is defined if and only if both of its side's parameters are, and is then A·e^(−kδ) |
| IntensityModel.SpreadOf | src/main/java/org/github/im1235/eie/IntensityInfo.java:39-45 | a getter's spread is getSpread of its side's parameters when both are defined, and undefined when either is not |
| IntensityModel.SidesStandAlone | src/main/java/org/github/im1235/eie/IntensityInfo.java:24-45 | built from two [A, k] arrays, the buy getters depend only on the buy array and the sell getters only on the sell array; a finite side answers A·e^(−kδ) from its array's elements 0 and 1 whatever the other side holds |
| IntensityModel.InfoRoundTrip | src/main/java/org/github/im1235/eie/IntensityInfo.java:31-45 | on each side whose A and k are finite and non-zero, the spread getter inverts the intensity getter |
| IntensityModel.SymmetricInfoAgrees | src/test/java/org/github/im1235/eie/IntensityInfoTest.java:32-40 | with equal parameters on both sides, defined or not, the buy and sell answers agree |
| AkSpreads.Abs | src/main/java/org/github/im1235/eie/calibration/AbstractAkSolver.java:16 | the absolute value is non-negative and is x or −x |
| AkSpreads.AbsSpreads | src/main/java/org/github/im1235/eie/calibration/AbstractAkSolver.java:16 | the stored specification has the argument's length, and entry i is the non-negative one of spec[i] and −spec[i] |
| AkSpreads.AbsSpreadsOfNegated | src/main/java/org/github/im1235/eie/calibration/AbstractAkSolver.java:16 | negating every spread leaves the stored specification unchanged |
| AkSpreads.AbsSpreadsOfNonNegative | src/main/java/org/github/im1235/eie/calibration/AbstractAkSolver.java:16 | a specification of non-negative spreads is stored unchanged |
| AkMultiCurve.RowPairs | src/main/java/org/github/im1235/eie/calibration/AkMultiCurveSolver.java:38 | row i of the inner loop is the pairs (i, i+1), …, (i, n−1), in that order |
| AkMultiCurve.PairsUpToLength | src/main/java/org/github/im1235/eie/calibration/AkMultiCurveSolver.java:37-43 | rows 0 … r−1 hold r·(2n − r − 1)/2 pairs |
| AkMultiCurve.PairsLength | src/main/java/org/github/im1235/eie/calibration/AkMultiCurveSolver.java:36-43 | the nested loop visits exactly n(n−1)/2 pairs, the buffer size of the constructor |
| AkMultiCurve.PairsUpToMembers | src/main/java/org/github/im1235/eie/calibration/AkMultiCurveSolver.java:37-43 | rows 0 … r−1 hold exactly the pairs i < j < n with i < r |
| AkMultiCurve.PairsUpToSorted | src/main/java/org/github/im1235/eie/calibration/AkMultiCurveSolver.java:37-43 | the pairs of rows 0 … r−1 are in strictly increasing lexicographic order |
| AkMultiCurve.PairsExactly | src/main/java/org/github/im1235/eie/calibration/AkMultiCurveSolver.java:36-43 | the loop visits every pair i < j < n, each once, in strictly increasing lexicographic order |
| AkMultiCurve.PairsUpToPrefix | src/main/java/org/github/im1235/eie/calibration/AkMultiCurveSolver.java:37-43 | the pairs of fewer rows are a prefix of the pairs of more rows, which is why estIdx only grows |
| AkMultiCurve.CountMonotone | src/main/java/org/github/im1235/eie/calibration/AkMultiCurveSolver.java:25 | fewer intensities than spreads never need more slots than the buffers have |
| AkMultiCurve.SolveRecovers | src/main/java/org/github/im1235/eie/calibration/AkMultiCurveSolver.java:39-40 | two points of λ = A·e^(−kδ) at distinct spreads solve back to exactly that k and that A |
| AkMultiCurve.SolveKRecovers | src/main/java/org/github/im1235/eie/calibration/AkMultiCurveSolver.java:39 | ln(λj/λi)/(δi − δj) is exactly k for two points of the curve, with λi ≠ 0 and λj/λi > 0 |
| AkMultiCurve.SolveARecovers | src/main/java/org/github/im1235/eie/calibration/AkMultiCurveSolver.java:40 | λi·e^(k·δi) is exactly A for a point of the curve |
| AkMultiCurve.PairK | src/main/java/org/github/im1235/eie/calibration/AkMultiCurveSolver.java:39 | a pair's k is finite if and only if both intensities are, λi ≠ 0, λj/λi > 0 and the spreads differ |
| AkMultiCurve.PairA | src/main/java/org/github/im1235/eie/calibration/AkMultiCurveSolver.java:40 | a pair's A is finite if and only if its k is, or k·δi is −∞ (k = −∞ with δi > 0, or k = +∞ with δi < 0); in the second case it is the 0 of λi·e^(−∞) |
| AkMultiCurve.PairRecovers | src/main/java/org/github/im1235/eie/calibration/AkMultiCurveSolver.java:39-40 | on noiseless data every pair with distinct spreads yields exactly (A, k) |
| AkMultiCurve.PairKs | src/main/java/org/github/im1235/eie/calibration/AkMultiCurveSolver.java:39 | one k estimate per visited pair |
| AkMultiCurve.PairAs | src/main/java/org/github/im1235/eie/calibration/AkMultiCurveSolver.java:40 | one A estimate per visited pair |
| AkMultiCurve.ZeroNearIntensity | src/main/java/org/github/im1235/eie/calibration/AkMultiCurveSolver.java:39-44 | intensities [0, 1] at spreads [1, 2]: the pair's k is −∞, so mean k is undefined, while mean A is exactly 0 |
| AkMultiCurve.MeanOf | src/main/java/org/github/im1235/eie/calibration/AkMultiCurveSolver.java:44 | the mean is finite if and only if the sample is non-empty and all its elements are finite |
| AkMultiCurve.MeanOfConstant | src/main/java/org/github/im1235/eie/calibration/AkMultiCurveSolver.java:44 | the mean of a non-empty sample whose elements are all c is c |
| AkMultiCurve.MultiCurveRecovers | src/main/java/org/github/im1235/eie/calibration/AkMultiCurveSolver.java:35-45 | two or more points on λ = A·e^(−kδ) at pairwise distinct spreads give back exactly [A, k] |
| AkMultiCurve.AkMultiCurveSolver.constructor | src/main/java/org/github/im1235/eie/calibration/AkMultiCurveSolver.java:23-28 | stores the absolute spreads and two distinct new buffers of n(n−1)/2 zeros |
| AkMultiCurve.AkMultiCurveSolver.SolveAk | src/main/java/org/github/im1235/eie/calibration/AkMultiCurveSolver.java:35-45 | slot t of each buffer gets the estimate of the t-th pair, later slots keep their old values, and the answer is [mean A, mean k] of the buffers; with one intensity per spread every slot is rewritten and the answer is `MultiCurveAk` of the input |
| AkMultiCurve.AkMultiCurveSolver.FillAll | src/main/java/org/github/im1235/eie/calibration/AkMultiCurveSolver.java:36-43 | the outer loop leaves the first n(n−1)/2 slots holding the estimates of the enumerated pairs, in order, and the slots after them untouched |
| AkMultiCurve.AkMultiCurveSolver.FillRow | src/main/java/org/github/im1235/eie/calibration/AkMultiCurveSolver.java:38-42 | the inner loop writes row i's pair estimates into the slots from estIdx on, returns estIdx plus the row length, and leaves the slots after that alone |
| AkMultiCurve.SlotsHoldSnoc | src/main/java/org/github/im1235/eie/calibration/AkMultiCurveSolver.java:39-41 | writing the pair (i, j) into slot estIdx extends the pairs the buffers hold by that pair |
| AkMultiCurve.SlotsHoldAll | src/main/java/org/github/im1235/eie/calibration/AkMultiCurveSolver.java:36-43 | buffers holding the estimates of all visited pairs start with `PairKs`/`PairAs`, and equal them when the buffer is exactly as long as the number of pairs |
| AkRegression.SumSqDevNonNegative | src/main/java/org/github/im1235/eie/calibration/AkRegressionSolver.java:35 | the centred sum of squares is non-negative |
| AkRegression.SumSqDevPositive | src/main/java/org/github/im1235/eie/calibration/AkRegressionSolver.java:35 | the centred sum of squares is positive as soon as one x is off the centre |
| AkRegression.FitsOfDistinct | src/main/java/org/github/im1235/eie/calibration/AkRegressionSolver.java:35 | two distinct x values suffice for a fit |
| AkRegression.SumOfLine | src/main/java/org/github/im1235/eie/calibration/AkRegressionSolver.java:35 | summing points of the line b − k·x sums the line |
| AkRegression.MeanOfLine | src/main/java/org/github/im1235/eie/calibration/AkRegressionSolver.java:35 | the mean of points on a line lies on the line |
| AkRegression.SumCrossDevOfLine | src/main/java/org/github/im1235/eie/calibration/AkRegressionSolver.java:35 | on a line, the centred cross sum is −k times the centred sum of squares |
| AkRegression.OlsRecoversLine | src/main/java/org/github/im1235/eie/calibration/AkRegressionSolver.java:35 | least squares on points of a line returns slope −k and intercept b exactly |
| AkRegression.LogOf | src/main/java/org/github/im1235/eie/calibration/AkRegressionSolver.java:33 | Math.log of an intensity is finite if and only if the intensity is finite and positive |
| AkRegression.Points | src/main/java/org/github/im1235/eie/calibration/AkRegressionSolver.java:32-33 | one point (δi, ln λi) per spread of the specification, in order |
| AkRegression.Fit | src/main/java/org/github/im1235/eie/calibration/AkRegressionSolver.java:35 | A and k are finite together, exactly when every log is finite and the regression has a fit |
| AkRegression.LogOfCurve | src/main/java/org/github/im1235/eie/calibration/AkRegressionSolver.java:33 | the log of a point of λ = A·e^(−kδ) lies on the line ln A − k·δ |
| AkRegression.RegressionRecovers | src/main/java/org/github/im1235/eie/calibration/AkRegressionSolver.java:29-36 | intensities on λ = A·e^(−kδ) at spreads that are not all equal give back exactly [A, k] |
| AkRegression.RegressionNeedsTwoPoints | src/main/java/org/github/im1235/eie/calibration/AkRegressionSolver.java:35 | with fewer than two spreads there is no fit and both estimates are undefined |
| AkRegression.AkRegressionSolver.constructor | src/main/java/org/github/im1235/eie/calibration/AkRegressionSolver.java:20-22 | stores the absolute spreads; the regression holds no data |
| AkRegression.AkRegressionSolver.SolveAk | src/main/java/org/github/im1235/eie/calibration/AkRegressionSolver.java:29-36 | the regression afterwards holds exactly the points (δi, ln λi), and the answer is [e^intercept, −slope] of their fit |
| AkFactory.AkSolver.Ak | src/main/java/org/github/im1235/eie/calibration/AbstractAkSolver.java:23 | every solver answers two values, [A, k] |
| AkFactory.AkRecovers | src/main/java/org/github/im1235/eie/calibration/AbstractAkSolver.java:23 | whichever solver it is, two or more exact curve points at distinct spreads give back exactly [A, k] |
| AkFactory.SolveAk | src/main/java/org/github/im1235/eie/calibration/AbstractAkSolver.java:23 | the abstract call answers what the concrete solver's function gives for the input |
| AkFactory.AkSolverFactory.constructor | src/main/java/org/github/im1235/eie/calibration/AkSolverFactory.java:18-20 | the solver type is fixed at construction (a `const` field) |
| AkFactory.AkSolverFactory.GetSolver | src/main/java/org/github/im1235/eie/calibration/AkSolverFactory.java:26-35 | MULTI_CURVE yields a pairwise solver and LOG_REGRESSION a regression solver, new, over the absolute values of the given spreads; every type yields a solver |

## Left out

- The asynchronous variants `onTickAsync`, `estimateAkAsync` and `estimateAsync`, `EstimationExecutor`, and the `synchronized` modifiers are concurrency and are not modelled. The frame facts show that each level's update touches only that level and that the two ladders share no state, which is what makes the parallel paths agree with the sequential ones.
- IEEE-754 doubles are exact reals. NaN and the infinities are one `None`, so sign and kind of a non-finite value are not distinguished, and rounding and the tests' 1e-10 tolerance are not modelled.
- Signed zero is not modelled: an intensity is never −0.0, and the +0.0 of δi − δj for two equal spreads is the only zero whose sign a case split uses.
- IntensityModel.IntensityOf: an infinite A or k is `None` like NaN, so getIntensity(δ, 0, −∞) and similar products of an infinity are not distinguished. On the pairwise path this loses nothing: `Mean` (Apache Commons) turns any non-finite element into NaN, so the solver only answers finite values or NaN.
- AkRegression.Fit: the regression's non-finite cases are `None`. In Java a log of 0 gives y = −∞, and the regression's intercept can then be −∞ with A = e^(−∞) = 0; the model leaves A undefined there.
- The overflow of the `long` running sum that `EmpiricalIntensityEstimator.java:52` flags is not modelled. Time stamps and sums are unbounded integers, so a wrapped-around negative intensity cannot arise in the model.
- `ListIterator` is modelled as a cursor that splits the list into the scanned part and the rest. The loops work on copies of the lists and sums and store them back when they end. A `LinkedList` has no aliasing beyond its owner, so no behaviour is lost.
- Apache Commons `SimpleRegression` is not part of this model. The regression is the textbook centred least-squares fit (slope Sxy/Sxx, intercept ȳ − slope·x̄) over exact reals. The library's test for a degenerate fit is modelled as Sxx = 0 with at least two points.
- Apache Commons `Mean` is not part of this model. It is Σ/n over exact reals, and its two-pass correction is not modelled.
- The tests, their CSV input, progress bar and output writer are not modelled. The tests' "intensities decrease with spread" assertions are facts about market data, not about the code.
- EmpiricalIntensity.EmpiricalIntensityEstimator.constructor: takes the side explicitly instead of deriving it from the sign of its spread. That is what the three-argument call at `SpreadIntensityCurve.java:36` passes. The two-argument rule of `EmpiricalIntensityEstimator.java:75` is kept as `SideOfSign`/`LevelSideAsWritten` (see "Findings").
- AkFactory.AkSolverFactory.GetSolver: the `default → null` branch of the switch is left out, because the enum has only the two handled values and Dafny's match is exhaustive.
- AkMultiCurve.AkMultiCurveSolver.SolveAk: more intensities than spreads would index past the specification in Java (an exception); the requires excludes it.
- AkRegression.AkRegressionSolver.SolveAk: fewer intensities than spreads would index past the intensity array in Java (an exception); the requires excludes it. Both solvers always receive exactly one intensity per spread from the ladder.
- EmpiricalIntensity.EmpiricalIntensityEstimator.EstimateIntensity requires a non-empty live list because `getLast()` throws on an empty one. The ladder's `Ready()` (true after any tick) carries this to `SpreadIntensityCurve.EstimateAk` and `IntensityEstimator.Estimate`. The exception path of an estimate before the first tick is not modelled.
- `nSpreads` is a `nat`. A negative count makes Java's array allocation throw, and that is not modelled.
- `Math.exp` and `Math.log` are the parameter `m` constrained by `Lawful(m)` where a proof needs them.
- Each ladder's tick and estimate inside `IntensityEstimator.onTick`/`estimate` is its own small method (`TickSell`, `TickBuy`, `EstimateBuy`, `EstimateSell`). This only splits the proof; the order of the calls is the source's (sell before buy on a tick, buy before sell in an estimate).

## Findings

| source | as written | input that shows it | evidently intended | confidence | as-written member | corrected member |
|---|---|---|---|---|---|---|
| src/main/java/org/github/im1235/eie/calibration/SpreadIntensityCurve.java:36 | the call passes three arguments, but the tracker's only constructor (`EmpiricalIntensityEstimator.java:72-92`) takes (spread, dt) and picks the sell rule only when `spread > 0`; under it, level 0 of the sell ladder (spread 0) gets the buy fill rule | spreadStep > 0, level i = 0 | every level of a ladder uses the side of `Math.signum(spreadStep)`, so the whole sell ladder uses the sell rule | not executed | SpreadCurve.LevelSideAsWritten (with SpreadCurve.SideAsWrittenDiffers) | SpreadCurve.LevelSide |

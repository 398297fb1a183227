/** The pairwise A/k solver. From N points (δ, λ) of the spread-intensity
    curve it takes every one of the N(N−1)/2 pairs, solves
    λi = A·e^(−k·δi), λj = A·e^(−k·δj) for the pair's A and k, and returns
    the means of the pair estimates. */
module AkMultiCurve {
  import opened Wrappers
  import opened RealMath
  import opened AkSpreads
  import opened IntensityModel

  // ---------------------------------------------------------------------
  // The pairs, in the order of the nested loop

  /** Number of pairs i < j among n points. */
  function PairCount(n: nat): nat
  {
    n * (n - 1) / 2
  }

  /** The pairs (i, j) with i < j < n of one row i, by increasing j. */
  function RowPairs(i: nat, n: nat): (r: seq<(nat, nat)>)
    ensures |r| == if i < n then n - i - 1 else 0
    ensures forall t :: 0 <= t < |r| ==> r[t] == (i, i + 1 + t)
  {
    if i + 1 < n then RowPairs(i, n - 1) + [(i, n - 1)] else []
  }

  /** The pairs of the rows 0 .. rows−1, row after row. */
  function PairsUpTo(rows: nat, n: nat): seq<(nat, nat)>
  {
    if rows == 0 then [] else PairsUpTo(rows - 1, n) + RowPairs(rows - 1, n)
  }

  /** The pairs the solver visits for n intensities: rows 0 .. n−2. */
  function Pairs(n: nat): seq<(nat, nat)>
  {
    PairsUpTo(if n == 0 then 0 else n - 1, n)
  }

  /** Lexicographic order on pairs. */
  predicate LexLess(p: (nat, nat), q: (nat, nat))
  {
    p.0 < q.0 || (p.0 == q.0 && p.1 < q.1)
  }

  lemma {:induction false} PairsUpToLength(rows: nat, n: nat)
    requires rows <= n
    ensures 2 * |PairsUpTo(rows, n)| == rows * (2 * n - rows - 1)
  {
    if rows > 0 {
      PairsUpToLength(rows - 1, n);
      assert 2 * |PairsUpTo(rows, n)| == (rows - 1) * (2 * n - rows) + 2 * (n - rows);
    }
  }

  /** The loop visits exactly N(N−1)/2 pairs. */
  lemma PairsLength(n: nat)
    ensures |Pairs(n)| == PairCount(n)
  {
    if n > 0 {
      PairsUpToLength(n - 1, n);
      assert 2 * |Pairs(n)| == n * (n - 1);
    }
  }

  lemma {:induction false} PairsUpToMembers(rows: nat, n: nat)
    ensures forall p :: p in PairsUpTo(rows, n) <==> p.0 < rows && p.0 < p.1 < n
  {
    if rows > 0 {
      PairsUpToMembers(rows - 1, n);
      var row := RowPairs(rows - 1, n);
      forall p: (nat, nat) | p.0 == rows - 1 && p.0 < p.1 < n
        ensures p in row
      {
        assert row[p.1 - rows] == p;
      }
    }
  }

  lemma {:induction false} PairsUpToSorted(rows: nat, n: nat)
    ensures forall a, b :: 0 <= a < b < |PairsUpTo(rows, n)| ==> LexLess(PairsUpTo(rows, n)[a], PairsUpTo(rows, n)[b])
  {
    if rows > 0 {
      PairsUpToSorted(rows - 1, n);
      PairsUpToMembers(rows - 1, n);
      var front := PairsUpTo(rows - 1, n);
      var row := RowPairs(rows - 1, n);
      forall a, b | 0 <= a < |front| && 0 <= b < |row|
        ensures LexLess(front[a], row[b])
      {
        assert front[a] in front;
      }
      ConcatSorted(front, row);
    }
  }

  /** Two sorted runs, every element of the first below every element of
      the second, make a sorted sequence. */
  lemma ConcatSorted(xs: seq<(nat, nat)>, ys: seq<(nat, nat)>)
    requires forall a, b :: 0 <= a < b < |xs| ==> LexLess(xs[a], xs[b])
    requires forall a, b :: 0 <= a < b < |ys| ==> LexLess(ys[a], ys[b])
    requires forall a, b :: 0 <= a < |xs| && 0 <= b < |ys| ==> LexLess(xs[a], ys[b])
    ensures forall a, b :: 0 <= a < b < |xs + ys| ==> LexLess((xs + ys)[a], (xs + ys)[b])
  {
    var all := xs + ys;
    forall a, b | 0 <= a < b < |all|
      ensures LexLess(all[a], all[b])
    {
      if b < |xs| {
        assert all[a] == xs[a] && all[b] == xs[b];
      } else if a < |xs| {
        assert all[a] == xs[a] && all[b] == ys[b - |xs|];
      } else {
        assert all[a] == ys[a - |xs|] && all[b] == ys[b - |xs|];
      }
    }
  }

  /** The nested loop enumerates every pair i < j < n, once each, in strictly
      increasing lexicographic order. */
  lemma PairsExactly(n: nat)
    ensures forall p :: p in Pairs(n) <==> p.0 < p.1 < n
    ensures forall a, b :: 0 <= a < b < |Pairs(n)| ==> LexLess(Pairs(n)[a], Pairs(n)[b])
    ensures forall a, b :: 0 <= a < b < |Pairs(n)| ==> Pairs(n)[a] != Pairs(n)[b]
  {
    var rows := if n == 0 then 0 else n - 1;
    PairsUpToMembers(rows, n);
    PairsUpToSorted(rows, n);
  }

  // ---------------------------------------------------------------------
  // The estimate of one pair

  /** The two equations λi = A·e^(−k·δi), λj = A·e^(−k·δj) solved for k ... */
  function SolveK(li: real, lj: real, di: real, dj: real, m: ExpLn): real
    requires li != 0.0 && di != dj
  {
    m.Ln(lj / li) / (di - dj)
  }

  /** ... and for A, given k. */
  function SolveA(li: real, k: real, di: real, m: ExpLn): real
  {
    li * m.Exp(k * di)
  }

  /** Two points on λ = A·e^(−kδ) at distinct spreads solve back to exactly
      that k and that A. */
  lemma SolveRecovers(li: real, lj: real, di: real, dj: real, a: real, k: real, m: ExpLn)
    requires Lawful(m) && a > 0.0 && di != dj
    requires li == GetIntensity(di, a, k, m) && lj == GetIntensity(dj, a, k, m)
    ensures li != 0.0 && lj / li > 0.0
    ensures SolveK(li, lj, di, dj, m) == k
    ensures SolveA(li, k, di, m) == a
  {
    SolveKRecovers(li, lj, di, dj, a, k, m);
    SolveARecovers(li, di, a, k, m);
  }

  lemma SolveKRecovers(li: real, lj: real, di: real, dj: real, a: real, k: real, m: ExpLn)
    requires Lawful(m) && a > 0.0 && di != dj
    requires li == GetIntensity(di, a, k, m) && lj == GetIntensity(dj, a, k, m)
    ensures li != 0.0 && lj / li > 0.0
    ensures SolveK(li, lj, di, dj, m) == k
  {
    UnfoldIntensity(di, a, k, m);
    UnfoldIntensity(dj, a, k, m);
    var ei := m.Exp(-k * di);
    var ej := m.Exp(-k * dj);
    ExpPos(m, -k * di);
    ExpPos(m, -k * dj);
    var x := k * (di - dj);
    ExpAdd(m, x, -k * di);
    assert x + -k * di == -k * dj;
    assert ej == m.Exp(x) * ei;
    assert lj / li == m.Exp(x);
    LnExp(m, x);
    assert SolveK(li, lj, di, dj, m) == x / (di - dj);
  }

  lemma SolveARecovers(li: real, di: real, a: real, k: real, m: ExpLn)
    requires Lawful(m)
    requires li == GetIntensity(di, a, k, m)
    ensures SolveA(li, k, di, m) == a
  {
    var y := k * di;
    var e := m.Exp(y);
    var f := m.Exp(-y);
    ExpNegInverse(m, y);
    assert -y == -k * di;
    UnfoldIntensity(di, a, k, m);
    assert li == a * f;
    assert SolveA(li, k, di, m) == li * e;
    ExpProductCancels(a, e, f);
  }

  /** k of the pair (i, j). A non-finite Java result (an intensity that is
      itself undefined, λi = 0, a ratio that is not positive, or two equal
      spreads) is None. */
  function PairK(lam: seq<Option<real>>, d: seq<real>, i: nat, j: nat, m: ExpLn): (r: Option<real>)
    requires i < |lam| && j < |lam| && |lam| <= |d|
    ensures r.Some? <==> lam[i].Some? && lam[j].Some? && lam[i].value != 0.0
                         && lam[j].value / lam[i].value > 0.0 && d[i] != d[j]
  {
    if lam[i].Some? && lam[j].Some? && lam[i].value != 0.0 && lam[j].value / lam[i].value > 0.0 && d[i] != d[j] then
      Some(SolveK(lam[i].value, lam[j].value, d[i], d[j], m))
    else
      None
  }

  /** Java's k of the pair is −∞: ln(±0) = −∞ over a positive spread
      difference or the +0.0 of two equal spreads, ln(+∞) = +∞ over a
      negative difference, or a negative finite log over +0.0. */
  predicate PairKIsMinusInfinity(lam: seq<Option<real>>, d: seq<real>, i: nat, j: nat)
    requires i < |lam| && j < |lam| && |lam| <= |d|
  {
    && lam[i].Some? && lam[j].Some?
    && (|| (lam[j].value == 0.0 && lam[i].value != 0.0 && d[i] >= d[j])
        || (lam[i].value == 0.0 && lam[j].value > 0.0 && d[i] < d[j])
        || (lam[i].value != 0.0 && 0.0 < lam[j].value / lam[i].value < 1.0 && d[i] == d[j]))
  }

  /** Java's k of the pair is +∞, the mirror cases. */
  predicate PairKIsPlusInfinity(lam: seq<Option<real>>, d: seq<real>, i: nat, j: nat)
    requires i < |lam| && j < |lam| && |lam| <= |d|
  {
    && lam[i].Some? && lam[j].Some?
    && (|| (lam[j].value == 0.0 && lam[i].value != 0.0 && d[i] < d[j])
        || (lam[i].value == 0.0 && lam[j].value > 0.0 && d[i] >= d[j])
        || (lam[i].value != 0.0 && lam[j].value / lam[i].value > 1.0 && d[i] == d[j]))
  }

  /** A of the pair, λi·e^(k·δi) with the pair's own k. It is finite with k,
      and it is also the finite 0 when k·δi is −∞, since e^(−∞) is 0 and λi
      is finite; any other infinite or NaN k leaves it NaN. */
  function PairA(lam: seq<Option<real>>, d: seq<real>, i: nat, j: nat, m: ExpLn): (r: Option<real>)
    requires i < |lam| && j < |lam| && |lam| <= |d|
    ensures r.Some? <==> || PairK(lam, d, i, j, m).Some?
                         || (PairKIsMinusInfinity(lam, d, i, j) && d[i] > 0.0)
                         || (PairKIsPlusInfinity(lam, d, i, j) && d[i] < 0.0)
    ensures r.Some? && PairK(lam, d, i, j, m).None? ==> r == Some(0.0)
  {
    var k := PairK(lam, d, i, j, m);
    if k.Some? then Some(SolveA(lam[i].value, k.value, d[i], m))
    else if (PairKIsMinusInfinity(lam, d, i, j) && d[i] > 0.0) || (PairKIsPlusInfinity(lam, d, i, j) && d[i] < 0.0) then Some(0.0)
    else None
  }

  /** On noiseless data with distinct spreads, every pair solves back to
      exactly (A, k). */
  lemma PairRecovers(lam: seq<Option<real>>, d: seq<real>, a: real, k: real, i: nat, j: nat, m: ExpLn)
    requires Lawful(m) && a > 0.0
    requires i < |lam| && j < |lam| && |lam| <= |d| && d[i] != d[j]
    requires lam[i] == Some(GetIntensity(d[i], a, k, m))
    requires lam[j] == Some(GetIntensity(d[j], a, k, m))
    ensures PairK(lam, d, i, j, m) == Some(k)
    ensures PairA(lam, d, i, j, m) == Some(a)
  {
    SolveRecovers(lam[i].value, lam[j].value, d[i], d[j], a, k, m);
  }

  lemma ExpProductCancels(a: real, e: real, f: real)
    requires e * f == 1.0
    ensures (a * f) * e == a
  {
    assert (a * f) * e == a * (e * f);
  }

  /** The k and the A estimates, slot by slot as the loop writes them. */
  function PairKs(lam: seq<Option<real>>, d: seq<real>, m: ExpLn): (r: seq<Option<real>>)
    requires |lam| <= |d|
    ensures |r| == |Pairs(|lam|)|
  {
    var ps := Pairs(|lam|);
    PairsExactly(|lam|);
    seq(|ps|, t requires 0 <= t < |ps| => PairK(lam, d, ps[t].0, ps[t].1, m))
  }

  function PairAs(lam: seq<Option<real>>, d: seq<real>, m: ExpLn): (r: seq<Option<real>>)
    requires |lam| <= |d|
    ensures |r| == |Pairs(|lam|)|
  {
    var ps := Pairs(|lam|);
    PairsExactly(|lam|);
    seq(|ps|, t requires 0 <= t < |ps| => PairA(lam, d, ps[t].0, ps[t].1, m))
  }

  // ---------------------------------------------------------------------
  // The mean of the estimates

  predicate AllDefined(s: seq<Option<real>>)
  {
    forall t :: 0 <= t < |s| ==> s[t].Some?
  }

  function Values(s: seq<Option<real>>): (r: seq<real>)
    requires AllDefined(s)
    ensures |r| == |s| && forall t :: 0 <= t < |s| ==> s[t] == Some(r[t])
  {
    seq(|s|, t requires 0 <= t < |s| => s[t].value)
  }

  /** The sample mean as Java computes it on doubles: NaN for an empty
      sample, and a non-finite result once one element is; both are None. */
  function MeanOf(s: seq<Option<real>>): (r: Option<real>)
    ensures r.Some? <==> |s| > 0 && AllDefined(s)
  {
    if |s| > 0 && AllDefined(s) then Some(Mean(Values(s))) else None
  }

  lemma MeanOfConstant(s: seq<Option<real>>, c: real)
    requires |s| > 0 && forall t :: 0 <= t < |s| ==> s[t] == Some(c)
    ensures MeanOf(s) == Some(c)
  {
    MeanConstant(Values(s), c);
  }

  /** The solver's answer as a function of its inputs: [mean A, mean k]. */
  function MultiCurveAk(lam: seq<Option<real>>, d: seq<real>, m: ExpLn): seq<Option<real>>
    requires |lam| <= |d|
  {
    [MeanOf(PairAs(lam, d, m)), MeanOf(PairKs(lam, d, m))]
  }

  /** Exact recovery: with at least two points on λ = A·e^(−kδ) at distinct
      spreads, the solver returns exactly [A, k]. */
  lemma MultiCurveRecovers(lam: seq<Option<real>>, d: seq<real>, a: real, k: real, m: ExpLn)
    requires Lawful(m) && a > 0.0 && |lam| >= 2 && |lam| <= |d|
    requires forall i, j :: 0 <= i < j < |lam| ==> d[i] != d[j]
    requires forall i :: 0 <= i < |lam| ==> lam[i] == Some(GetIntensity(d[i], a, k, m))
    ensures MultiCurveAk(lam, d, m) == [Some(a), Some(k)]
  {
    var ps := Pairs(|lam|);
    PairsExactly(|lam|);
    PairsLength(|lam|);
    var ks := PairKs(lam, d, m);
    var aa := PairAs(lam, d, m);
    forall t | 0 <= t < |ps|
      ensures ks[t] == Some(k) && aa[t] == Some(a)
    {
      var (i, j) := ps[t];
      assert (i, j) in ps;
      PairRecovers(lam, d, a, k, i, j, m);
    }
    assert |ps| > 0 by {
      assert (0, 1) in ps;
    }
    MeanOfConstant(ks, k);
    MeanOfConstant(aa, a);
  }

  /** A zero intensity at the nearer spread: ln(1/0) = +∞ over the
      negative spread difference makes k = −∞, which leaves k undefined but
      makes A = 0·e^(−∞) the finite 0. */
  lemma ZeroNearIntensity(m: ExpLn)
    ensures MultiCurveAk([Some(0.0), Some(1.0)], [1.0, 2.0], m) == [Some(0.0), None]
  {
    var lam := [Some(0.0), Some(1.0)];
    var d := [1.0, 2.0];
    assert RowPairs(0, 2) == [(0, 1)];
    assert Pairs(2) == [(0, 1)];
    assert PairKIsMinusInfinity(lam, d, 0, 1);
    assert PairKs(lam, d, m) == [None];
    assert PairAs(lam, d, m) == [Some(0.0)];
    MeanOfConstant([Some(0.0)], 0.0);
  }

  // ---------------------------------------------------------------------
  // The solver object

  class AkMultiCurveSolver {
    const spreadSpecification: seq<real>
    const kEstimates: array<Option<real>>
    const aEstimates: array<Option<real>>

    /** Both buffers hold one slot per pair of spreads and are two arrays. */
    ghost predicate Valid()
    {
      && kEstimates.Length == PairCount(|spreadSpecification|)
      && aEstimates.Length == PairCount(|spreadSpecification|)
      && kEstimates != aEstimates
    }

    /** A new double[] is all zeros. */
    constructor (spreadSpec: seq<real>)
      ensures Valid()
      ensures spreadSpecification == AbsSpreads(spreadSpec)
      ensures fresh(kEstimates) && fresh(aEstimates)
      ensures forall t :: 0 <= t < kEstimates.Length ==> kEstimates[t] == Some(0.0) && aEstimates[t] == Some(0.0)
    {
      spreadSpecification := AbsSpreads(spreadSpec);
      var nEstimates := |spreadSpec| * (|spreadSpec| - 1) / 2;
      kEstimates := new Option<real>[nEstimates](_ => Some(0.0));
      aEstimates := new Option<real>[nEstimates](_ => Some(0.0));
    }

    /** The pair loop. Slot t of each buffer receives the estimate of the
        t-th pair of the enumeration; slots past the pairs of `intensities`
        keep what an earlier call left there (none do when the lengths
        agree, as they always do on the ladder); the answer is the means
        of the whole buffers, A first. */
    method SolveAk(intensities: seq<Option<real>>, m: ExpLn) returns (r: seq<Option<real>>)
      requires Valid() && |intensities| <= |spreadSpecification|
      modifies kEstimates, aEstimates
      ensures Valid()
      ensures PairKs(intensities, spreadSpecification, m) <= kEstimates[..]
      ensures PairAs(intensities, spreadSpecification, m) <= aEstimates[..]
      ensures forall t :: PairCount(|intensities|) <= t < kEstimates.Length ==> kEstimates[t] == old(kEstimates[t])
      ensures forall t :: PairCount(|intensities|) <= t < aEstimates.Length ==> aEstimates[t] == old(aEstimates[t])
      ensures r == [MeanOf(aEstimates[..]), MeanOf(kEstimates[..])]
      ensures |intensities| == |spreadSpecification| ==> r == MultiCurveAk(intensities, spreadSpecification, m)
    {
      PairsLength(|intensities|);
      CountMonotone(|intensities|, |spreadSpecification|);
      FillAll(intensities, m);
      SlotsHoldAll(kEstimates[..], aEstimates[..], intensities, spreadSpecification, m);
      r := [MeanOf(aEstimates[..]), MeanOf(kEstimates[..])];
    }

    /** The outer loop: rows 0 .. n−2 fill the slots of all the pairs, in
        the order of the enumeration, and leave the slots after them alone. */
    method FillAll(intensities: seq<Option<real>>, m: ExpLn)
      requires kEstimates != aEstimates && kEstimates.Length == aEstimates.Length
      requires |intensities| <= |spreadSpecification| && |Pairs(|intensities|)| <= kEstimates.Length
      modifies kEstimates, aEstimates
      ensures SlotsHold(Pairs(|intensities|), kEstimates[..], aEstimates[..], intensities, spreadSpecification, m)
      ensures forall t :: |Pairs(|intensities|)| <= t < kEstimates.Length ==> kEstimates[t] == old(kEstimates[t])
      ensures forall t :: |Pairs(|intensities|)| <= t < aEstimates.Length ==> aEstimates[t] == old(aEstimates[t])
    {
      var n := |intensities|;
      ghost var ps: seq<(nat, nat)> := [];
      var estIdx := 0;
      var i := 0;
      while i < n - 1
        invariant 0 <= i && (n > 0 ==> i <= n - 1) && (n == 0 ==> i == 0)
        invariant ps == PairsUpTo(i, n) && estIdx == |ps| && estIdx <= kEstimates.Length
        invariant SlotsHold(ps, kEstimates[..], aEstimates[..], intensities, spreadSpecification, m)
        invariant forall t :: estIdx <= t < kEstimates.Length ==> kEstimates[t] == old(kEstimates[t])
        invariant forall t :: estIdx <= t < aEstimates.Length ==> aEstimates[t] == old(aEstimates[t])
      {
        PairsUpToPrefix(i + 1, n - 1, n);
        estIdx := FillRow(intensities, m, i, estIdx, ps);
        ps := ps + RowPairs(i, n);
        i := i + 1;
      }
      assert ps == Pairs(n);
    }

    /** The inner loop: the pairs (i, j), j = i+1 .. n−1, of row i go to the
        slots from estIdx on; the returned index is the first slot after
        them, and the slots from there on are left alone. */
    method FillRow(intensities: seq<Option<real>>, m: ExpLn, i: nat, estIdx: nat, ghost ps: seq<(nat, nat)>)
      returns (next: nat)
      requires kEstimates != aEstimates && kEstimates.Length == aEstimates.Length
      requires |intensities| <= |spreadSpecification| && i < |intensities|
      requires estIdx == |ps| && estIdx + (|intensities| - i - 1) <= kEstimates.Length
      requires SlotsHold(ps, kEstimates[..], aEstimates[..], intensities, spreadSpecification, m)
      modifies kEstimates, aEstimates
      ensures next == estIdx + (|intensities| - i - 1)
      ensures SlotsHold(ps + RowPairs(i, |intensities|), kEstimates[..], aEstimates[..], intensities, spreadSpecification, m)
      ensures forall t :: next <= t < kEstimates.Length ==> kEstimates[t] == old(kEstimates[t])
      ensures forall t :: next <= t < aEstimates.Length ==> aEstimates[t] == old(aEstimates[t])
    {
      var n := |intensities|;
      var d := spreadSpecification;
      ghost var row: seq<(nat, nat)> := [];
      next := estIdx;
      var j := i + 1;
      while j < n
        invariant i + 1 <= j <= n
        invariant row == RowPairs(i, j) && next == estIdx + |row| && next <= kEstimates.Length
        invariant SlotsHold(ps + row, kEstimates[..], aEstimates[..], intensities, d, m)
        invariant forall t :: next <= t < kEstimates.Length ==> kEstimates[t] == old(kEstimates[t])
        invariant forall t :: next <= t < aEstimates.Length ==> aEstimates[t] == old(aEstimates[t])
      {
        ghost var ks, avs := kEstimates[..], aEstimates[..];
        SlotsHoldSnoc(ps + row, ks, avs, intensities, d, i, j, m);
        var k, a := PairK(intensities, d, i, j, m), PairA(intensities, d, i, j, m);
        kEstimates[next] := k;
        assert kEstimates[..] == ks[next := k];
        aEstimates[next] := a;
        assert kEstimates[..] == ks[next := k] && aEstimates[..] == avs[next := a];
        assert ps + (row + [(i, j)]) == (ps + row) + [(i, j)];
        row := row + [(i, j)];
        next := next + 1;
        j := j + 1;
      }
    }
  }

  /** The first |ps| slots of the buffers hold the estimates of the pairs ps. */
  ghost predicate SlotsHold(ps: seq<(nat, nat)>, ks: seq<Option<real>>, avs: seq<Option<real>>, lam: seq<Option<real>>, d: seq<real>, m: ExpLn)
  {
    && |lam| <= |d| && |ps| <= |ks| && |ps| <= |avs|
    && (forall t :: 0 <= t < |ps| ==> ps[t].0 < |lam| && ps[t].1 < |lam|)
    && (forall t :: 0 <= t < |ps| ==> ks[t] == PairK(lam, d, ps[t].0, ps[t].1, m))
    && (forall t :: 0 <= t < |ps| ==> avs[t] == PairA(lam, d, ps[t].0, ps[t].1, m))
  }

  lemma SlotsHoldSnoc(ps: seq<(nat, nat)>, ks: seq<Option<real>>, avs: seq<Option<real>>, lam: seq<Option<real>>, d: seq<real>, i: nat, j: nat, m: ExpLn)
    requires SlotsHold(ps, ks, avs, lam, d, m) && |ps| < |ks| && |ps| < |avs| && i < |lam| && j < |lam|
    ensures SlotsHold(ps + [(i, j)], ks[|ps| := PairK(lam, d, i, j, m)],
                      avs[|ps| := PairA(lam, d, i, j, m)], lam, d, m)
  {
  }

  lemma SlotsHoldAll(ks: seq<Option<real>>, avs: seq<Option<real>>, lam: seq<Option<real>>, d: seq<real>, m: ExpLn)
    requires SlotsHold(Pairs(|lam|), ks, avs, lam, d, m)
    ensures PairKs(lam, d, m) <= ks
    ensures PairAs(lam, d, m) <= avs
    ensures |lam| == |d| && |ks| == PairCount(|d|) ==> ks == PairKs(lam, d, m)
    ensures |lam| == |d| && |avs| == PairCount(|d|) ==> avs == PairAs(lam, d, m)
  {
    PairsLength(|lam|);
  }

  lemma CountMonotone(n: nat, total: nat)
    requires n <= total
    ensures PairCount(n) <= PairCount(total)
  {
    if n > 0 {
      MulMonotone(n, total, n - 1);
      MulMonotone(n - 1, total - 1, total);
      assert n * (n - 1) <= total * (total - 1);
    }
  }

  /** The rows before r are a prefix of the rows before r'. */
  lemma {:induction false} PairsUpToPrefix(r: nat, r': nat, n: nat)
    requires r <= r'
    ensures |PairsUpTo(r, n)| <= |PairsUpTo(r', n)|
    ensures PairsUpTo(r', n)[..|PairsUpTo(r, n)|] == PairsUpTo(r, n)
  {
    if r < r' {
      PairsUpToPrefix(r, r' - 1, n);
    }
  }

  /** Arithmetic helper: multiplying by a natural keeps the order. */
  lemma MulMonotone(x: nat, y: nat, z: nat)
    requires x <= y
    ensures x * z <= y * z
  {
  }
}

/** The regression A/k solver: an ordinary least-squares fit of ln λ on δ
    with an intercept; k is minus the slope and A is e to the intercept. */
module AkRegression {
  import opened Wrappers
  import opened RealMath
  import opened AkSpreads
  import opened IntensityModel

  // ---------------------------------------------------------------------
  // Ordinary least squares on real samples

  /** One term of the centred sum of squares of x. */
  function Dev2(x: real, mx: real): real
  {
    Square(x - mx)
  }

  function Square(z: real): real
  {
    z * z
  }

  /** One term of the centred sum of cross products of x and y. */
  function Cross(x: real, y: real, mx: real, my: real): real
  {
    (x - mx) * (y - my)
  }

  /** Σ (x − mx)². */
  function SumSqDev(xs: seq<real>, mx: real): real
  {
    if xs == [] then 0.0 else SumSqDev(xs[..|xs| - 1], mx) + Dev2(xs[|xs| - 1], mx)
  }

  /** Σ (x − mx)(y − my). */
  function SumCrossDev(xs: seq<real>, ys: seq<real>, mx: real, my: real): real
    requires |xs| == |ys|
  {
    if xs == [] then 0.0
    else SumCrossDev(xs[..|xs| - 1], ys[..|ys| - 1], mx, my) + Cross(xs[|xs| - 1], ys[|ys| - 1], mx, my)
  }

  /** A fit exists when there are two or more points and x varies. Below
      that, the regression library answers NaN for slope and intercept. */
  predicate Fits(xs: seq<real>, ys: seq<real>)
  {
    |xs| == |ys| && |xs| >= 2 && SumSqDev(xs, Mean(xs)) != 0.0
  }

  function OlsSlope(xs: seq<real>, ys: seq<real>): real
    requires Fits(xs, ys)
  {
    SumCrossDev(xs, ys, Mean(xs), Mean(ys)) / SumSqDev(xs, Mean(xs))
  }

  function OlsIntercept(xs: seq<real>, ys: seq<real>): real
    requires Fits(xs, ys)
  {
    Mean(ys) - OlsSlope(xs, ys) * Mean(xs)
  }

  /** The straight line y = b − k·x. */
  function Line(b: real, k: real, x: real): real
  {
    b - k * x
  }

  lemma Dev2Sign(x: real, mx: real)
    ensures Dev2(x, mx) >= 0.0
    ensures x != mx ==> Dev2(x, mx) > 0.0
  {
    SquareSign(x - mx);
  }

  lemma SquareSign(z: real)
    ensures Square(z) >= 0.0
    ensures z != 0.0 ==> Square(z) > 0.0
  {
    if z != 0.0 && z * z == 0.0 {
      ZeroProduct(z, z);
    }
  }

  /** Arithmetic helper: a zero product has a zero factor. */
  lemma ZeroProduct(u: real, v: real)
    requires u * v == 0.0
    ensures u == 0.0 || v == 0.0
  {
  }

  lemma {:induction false} SumSqDevNonNegative(xs: seq<real>, mx: real)
    ensures SumSqDev(xs, mx) >= 0.0
  {
    if xs != [] {
      SumSqDevNonNegative(xs[..|xs| - 1], mx);
      Dev2Sign(xs[|xs| - 1], mx);
    }
  }

  /** The centred sum of squares is positive as soon as one x is off the
      centre. */
  lemma {:induction false} SumSqDevPositive(xs: seq<real>, mx: real, i: nat)
    requires i < |xs| && xs[i] != mx
    ensures SumSqDev(xs, mx) > 0.0
  {
    var n := |xs| - 1;
    SumSqDevNonNegative(xs[..n], mx);
    if i < n {
      assert xs[..n][i] == xs[i];
      SumSqDevPositive(xs[..n], mx, i);
      Dev2Sign(xs[n], mx);
    } else {
      Dev2Sign(xs[n], mx);
    }
  }

  /** Two distinct x values are enough for a fit. */
  lemma FitsOfDistinct(xs: seq<real>, ys: seq<real>, i: nat, j: nat)
    requires |xs| == |ys| && i < |xs| && j < |xs| && xs[i] != xs[j]
    ensures Fits(xs, ys)
  {
    if xs[i] != Mean(xs) {
      SumSqDevPositive(xs, Mean(xs), i);
    } else {
      SumSqDevPositive(xs, Mean(xs), j);
    }
  }

  /** Summing points of a line sums the line. */
  lemma {:induction false} SumOfLine(xs: seq<real>, ys: seq<real>, b: real, k: real)
    requires |xs| == |ys|
    requires forall i :: 0 <= i < |xs| ==> ys[i] == Line(b, k, xs[i])
    ensures Sum(ys) == |xs| as real * b - k * Sum(xs)
  {
    if xs != [] {
      var n := |xs| - 1;
      SumOfLine(xs[..n], ys[..n], b, k);
    }
  }

  lemma MeanOfLine(xs: seq<real>, ys: seq<real>, b: real, k: real)
    requires |xs| == |ys| && |xs| > 0
    requires forall i :: 0 <= i < |xs| ==> ys[i] == Line(b, k, xs[i])
    ensures Mean(ys) == Line(b, k, Mean(xs))
  {
    SumOfLine(xs, ys, b, k);
    var c := |xs| as real;
    assert (c * b - k * Sum(xs)) / c == b - k * (Sum(xs) / c);
  }

  lemma CrossOfLine(x: real, y: real, mx: real, my: real, b: real, k: real)
    requires y == Line(b, k, x) && my == Line(b, k, mx)
    ensures Cross(x, y, mx, my) == -k * Dev2(x, mx)
  {
  }

  /** Arithmetic helper: scaling both terms of a sum by c scales the sum. */
  lemma ScaleSum(c: real, p: real, q: real, u: real, v: real, s: real, t: real)
    requires p == c * u && q == c * v && s == p + q && t == u + v
    ensures s == c * t
  {
  }

  /** On a line the cross deviations are −k times the squared ones. */
  lemma {:induction false} SumCrossDevOfLine(xs: seq<real>, ys: seq<real>, mx: real, my: real, b: real, k: real)
    requires |xs| == |ys| && my == Line(b, k, mx)
    requires forall i :: 0 <= i < |xs| ==> ys[i] == Line(b, k, xs[i])
    ensures SumCrossDev(xs, ys, mx, my) == -k * SumSqDev(xs, mx)
  {
    if xs != [] {
      var n := |xs| - 1;
      var xp, yp := xs[..n], ys[..n];
      var p, q := SumCrossDev(xp, yp, mx, my), Cross(xs[n], ys[n], mx, my);
      var u, v := SumSqDev(xp, mx), Dev2(xs[n], mx);
      assert p == -k * u by {
        assert forall i :: 0 <= i < n ==> yp[i] == Line(b, k, xp[i]);
        SumCrossDevOfLine(xp, yp, mx, my, b, k);
      }
      assert q == -k * v by {
        CrossOfLine(xs[n], ys[n], mx, my, b, k);
      }
      assert SumCrossDev(xs, ys, mx, my) == p + q;
      assert SumSqDev(xs, mx) == u + v;
      ScaleSum(-k, p, q, u, v, SumCrossDev(xs, ys, mx, my), SumSqDev(xs, mx));
    }
  }

  /** Least squares recovers a line exactly: slope −k, intercept b. */
  lemma OlsRecoversLine(xs: seq<real>, ys: seq<real>, b: real, k: real)
    requires Fits(xs, ys)
    requires forall i :: 0 <= i < |xs| ==> ys[i] == Line(b, k, xs[i])
    ensures OlsSlope(xs, ys) == -k
    ensures OlsIntercept(xs, ys) == b
  {
    MeanOfLine(xs, ys, b, k);
    SumCrossDevOfLine(xs, ys, Mean(xs), Mean(ys), b, k);
  }

  // ---------------------------------------------------------------------
  // The data the solver hands to the regression

  /** Math.log of an intensity: finite only for a defined, positive one
      (the log of 0 is −∞ and of a negative number NaN). */
  function LogOf(lam: Option<real>, m: ExpLn): (r: Option<real>)
    ensures r.Some? <==> lam.Some? && lam.value > 0.0
  {
    if lam.Some? && lam.value > 0.0 then Some(m.Ln(lam.value)) else None
  }

  /** The points (δi, ln λi) for every spread of the specification. */
  function Points(d: seq<real>, lam: seq<Option<real>>, m: ExpLn): (r: seq<(real, Option<real>)>)
    requires |lam| >= |d|
    ensures |r| == |d|
    ensures forall i :: 0 <= i < |d| ==> r[i] == (d[i], LogOf(lam[i], m))
  {
    seq(|d|, i requires 0 <= i < |d| => (d[i], LogOf(lam[i], m)))
  }

  predicate AllLogsDefined(points: seq<(real, Option<real>)>)
  {
    forall i :: 0 <= i < |points| ==> points[i].1.Some?
  }

  function Xs(points: seq<(real, Option<real>)>): (r: seq<real>)
    ensures |r| == |points| && forall i :: 0 <= i < |points| ==> r[i] == points[i].0
  {
    seq(|points|, i requires 0 <= i < |points| => points[i].0)
  }

  function Ys(points: seq<(real, Option<real>)>): (r: seq<real>)
    requires AllLogsDefined(points)
    ensures |r| == |points| && forall i :: 0 <= i < |points| ==> points[i].1 == Some(r[i])
  {
    seq(|points|, i requires 0 <= i < |points| => points[i].1.value)
  }

  /** [A, k] from the regression over the points added: A = e^intercept and
      k = −slope. A non-finite y (NaN or −∞) makes both non-finite, and so
      does a regression without a fit; either way both are None. */
  function Fit(points: seq<(real, Option<real>)>, m: ExpLn): (r: seq<Option<real>>)
    ensures |r| == 2 && (r[0].Some? <==> r[1].Some?)
    ensures r[0].Some? <==> AllLogsDefined(points) && Fits(Xs(points), Ys(points))
  {
    if AllLogsDefined(points) && Fits(Xs(points), Ys(points)) then
      [Some(m.Exp(OlsIntercept(Xs(points), Ys(points)))), Some(-OlsSlope(Xs(points), Ys(points)))]
    else
      [None, None]
  }

  /** The solver's answer as a function of its inputs. */
  function RegressionAk(d: seq<real>, lam: seq<Option<real>>, m: ExpLn): seq<Option<real>>
    requires |lam| >= |d|
  {
    Fit(Points(d, lam, m), m)
  }

  /** The log of a point of the curve λ = A·e^(−kδ) lies on the line
      ln A − k·δ. */
  lemma LogOfCurve(delta: real, a: real, k: real, m: ExpLn)
    requires Lawful(m) && a > 0.0
    ensures LogOf(Some(GetIntensity(delta, a, k, m)), m) == Some(Line(m.Ln(a), k, delta))
  {
    var x := -k * delta;
    var e := m.Exp(x);
    UnfoldIntensity(delta, a, k, m);
    ExpPos(m, x);
    LnProduct(m, a, e);
    LnExp(m, x);
    assert GetIntensity(delta, a, k, m) == a * e;
    assert m.Ln(GetIntensity(delta, a, k, m)) == m.Ln(a) + x;
    assert Line(m.Ln(a), k, delta) == m.Ln(a) + x;
  }

  /** Exact recovery: intensities on λ = A·e^(−kδ) at two or more spreads,
      not all equal, give back exactly [A, k]. */
  lemma RegressionRecovers(d: seq<real>, lam: seq<Option<real>>, a: real, k: real, m: ExpLn, i: nat, j: nat)
    requires Lawful(m) && a > 0.0 && |lam| >= |d|
    requires i < |d| && j < |d| && d[i] != d[j]
    requires forall t :: 0 <= t < |d| ==> lam[t] == Some(GetIntensity(d[t], a, k, m))
    ensures RegressionAk(d, lam, m) == [Some(a), Some(k)]
  {
    var points := Points(d, lam, m);
    forall t | 0 <= t < |d|
      ensures points[t].1 == Some(Line(m.Ln(a), k, d[t]))
    {
      LogOfCurve(d[t], a, k, m);
    }
    var xs := Xs(points);
    var ys := Ys(points);
    assert forall t :: 0 <= t < |xs| ==> ys[t] == Line(m.Ln(a), k, xs[t]);
    assert Fits(xs, ys) by {
      FitsOfDistinct(xs, ys, i, j);
    }
    assert OlsIntercept(xs, ys) == m.Ln(a) && OlsSlope(xs, ys) == -k by {
      OlsRecoversLine(xs, ys, m.Ln(a), k);
    }
    assert m.Exp(m.Ln(a)) == a by {
      ExpLnOfPositive(m, a);
    }
  }

  /** At most one spread gives no fit: both estimates are undefined. */
  lemma RegressionNeedsTwoPoints(d: seq<real>, lam: seq<Option<real>>, m: ExpLn)
    requires |lam| >= |d| && |d| < 2
    ensures RegressionAk(d, lam, m) == [None, None]
  {
  }

  // ---------------------------------------------------------------------
  // The solver object

  class AkRegressionSolver {
    const spreadSpecification: seq<real>
    /** The points the regression holds: cleared and refilled by each call. */
    var regressionData: seq<(real, Option<real>)>

    constructor (spreadSpec: seq<real>)
      ensures spreadSpecification == AbsSpreads(spreadSpec)
      ensures regressionData == []
    {
      spreadSpecification := AbsSpreads(spreadSpec);
      regressionData := [];
    }

    /** Clears the regression, adds (δi, ln λi) for every spread of the
        specification and answers [e^intercept, −slope]. */
    method SolveAk(intensities: seq<Option<real>>, m: ExpLn) returns (r: seq<Option<real>>)
      requires |intensities| >= |spreadSpecification|
      modifies this
      ensures regressionData == Points(spreadSpecification, intensities, m)
      ensures r == RegressionAk(spreadSpecification, intensities, m)
    {
      regressionData := [];
      var i := 0;
      while i < |spreadSpecification|
        invariant 0 <= i <= |spreadSpecification|
        invariant regressionData == Points(spreadSpecification[..i], intensities, m)
      {
        regressionData := regressionData + [(spreadSpecification[i], LogOf(intensities[i], m))];
        i := i + 1;
      }
      assert spreadSpecification[..i] == spreadSpecification;
      r := Fit(regressionData, m);
    }
  }
}

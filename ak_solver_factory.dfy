/** The solvers behind one interface, and the factory that picks one. */
module AkFactory {
  import opened Wrappers
  import opened RealMath
  import opened AkSpreads
  import opened AkMultiCurve
  import opened AkRegression
  import opened IntensityModel

  /** Either concrete A/k solver. */
  datatype AkSolver = MultiCurveSolver(multi: AkMultiCurveSolver) | RegressionSolver(regression: AkRegressionSolver)
  {
    /** The stored spread specification (absolute spreads). */
    function Spreads(): seq<real>
    {
      match this
      case MultiCurveSolver(s) => s.spreadSpecification
      case RegressionSolver(s) => s.spreadSpecification
    }

    /** The objects a call to the solver writes. */
    ghost function Repr(): set<object>
    {
      match this
      case MultiCurveSolver(s) => {s.kEstimates, s.aEstimates}
      case RegressionSolver(s) => {s}
    }

    ghost predicate Valid()
    {
      match this
      case MultiCurveSolver(s) => s.Valid()
      case RegressionSolver(_) => true
    }

    /** The answer [A, k] of the solver for one intensity per spread. */
    function Ak(lam: seq<Option<real>>, m: ExpLn): (r: seq<Option<real>>)
      requires |lam| == |Spreads()|
      ensures |r| == 2
    {
      match this
      case MultiCurveSolver(s) => MultiCurveAk(lam, s.spreadSpecification, m)
      case RegressionSolver(s) => RegressionAk(s.spreadSpecification, lam, m)
    }
  }

  /** Whichever solver it is, intensities on λ = A·e^(−kδ) at two or more
      distinct spreads give back exactly [A, k]. */
  lemma AkRecovers(s: AkSolver, lam: seq<Option<real>>, a: real, k: real, m: ExpLn)
    requires Lawful(m) && a > 0.0 && |lam| == |s.Spreads()| && |lam| >= 2
    requires forall i, j :: 0 <= i < j < |lam| ==> s.Spreads()[i] != s.Spreads()[j]
    requires forall i :: 0 <= i < |lam| ==> lam[i] == Some(GetIntensity(s.Spreads()[i], a, k, m))
    ensures s.Ak(lam, m) == [Some(a), Some(k)]
  {
    match s
    case MultiCurveSolver(c) =>
      MultiCurveRecovers(lam, c.spreadSpecification, a, k, m);
    case RegressionSolver(c) =>
      RegressionRecovers(c.spreadSpecification, lam, a, k, m, 0, 1);
  }

  /** The abstract solveAk, dispatched to the concrete solver. */
  method SolveAk(s: AkSolver, lam: seq<Option<real>>, m: ExpLn) returns (r: seq<Option<real>>)
    requires s.Valid() && |lam| == |s.Spreads()|
    modifies s.Repr()
    ensures s.Valid()
    ensures r == s.Ak(lam, m)
  {
    match s
    case MultiCurveSolver(c) =>
      r := c.SolveAk(lam, m);
    case RegressionSolver(c) =>
      r := c.SolveAk(lam, m);
  }

  datatype SolverType = LogRegression | MultiCurve

  class AkSolverFactory {
    const solverType: SolverType

    constructor (solverType: SolverType)
      ensures this.solverType == solverType
    {
      this.solverType := solverType;
    }

    /** A new solver of the factory's type over the given spreads. */
    method GetSolver(spreadSpecification: seq<real>) returns (s: AkSolver)
      ensures s.MultiCurveSolver? <==> solverType == MultiCurve
      ensures s.Spreads() == AbsSpreads(spreadSpecification)
      ensures s.Valid() && fresh(s.Repr())
    {
      match solverType
      case MultiCurve =>
        var c := new AkMultiCurveSolver(spreadSpecification);
        s := MultiCurveSolver(c);
      case LogRegression =>
        var c := new AkRegressionSolver(spreadSpecification);
        s := RegressionSolver(c);
    }
  }
}

/** The parts of java.lang.Math and of a descriptive-statistics mean that the
    core relies on, over exact reals. */
module RealMath {

  /** Math.exp and Math.log. Dafny has no real exponential, so the pair is a
      value handed to every computation that needs it; `Lawful` states the
      laws the proofs use, which the real exponential and logarithm satisfy. */
  datatype ExpLn = ExpLn(exp: real -> real, ln: real -> real)
  {
    function Exp(x: real): real { exp(x) }

    function Ln(y: real): real { ln(y) }
  }

  ghost predicate LnOfExp(m: ExpLn, x: real) { m.Ln(m.Exp(x)) == x }

  ghost predicate ExpOfLn(m: ExpLn, y: real) { y > 0.0 ==> m.Exp(m.Ln(y)) == y }

  ghost predicate ExpOfSum(m: ExpLn, a: real, b: real) { m.Exp(a + b) == m.Exp(a) * m.Exp(b) }

  ghost predicate ExpPositive(m: ExpLn, x: real) { m.Exp(x) > 0.0 }

  /** Each law is quantified over a named predicate, so an instance is only
      produced where a lemma below mentions it. */
  ghost predicate Lawful(m: ExpLn) {
    && (forall x :: LnOfExp(m, x))
    && (forall y :: ExpOfLn(m, y))
    && (forall a, b :: ExpOfSum(m, a, b))
    && (forall x :: ExpPositive(m, x))
  }

  lemma LnExp(m: ExpLn, x: real)
    requires Lawful(m)
    ensures m.Ln(m.Exp(x)) == x
  {
    assert LnOfExp(m, x);
  }

  lemma ExpLnOfPositive(m: ExpLn, y: real)
    requires Lawful(m) && y > 0.0
    ensures m.Exp(m.Ln(y)) == y
  {
    assert ExpOfLn(m, y);
  }

  lemma ExpAdd(m: ExpLn, a: real, b: real)
    requires Lawful(m)
    ensures m.Exp(a + b) == m.Exp(a) * m.Exp(b)
  {
    assert ExpOfSum(m, a, b);
  }

  lemma ExpPos(m: ExpLn, x: real)
    requires Lawful(m)
    ensures m.Exp(x) > 0.0
  {
    assert ExpPositive(m, x);
  }

  lemma ExpZero(m: ExpLn)
    requires Lawful(m)
    ensures m.Exp(0.0) == 1.0
  {
    var e := m.Exp(0.0);
    ExpAdd(m, 0.0, 0.0);
    ExpPos(m, 0.0);
    assert m.Exp(0.0 + 0.0) == m.Exp(0.0) * m.Exp(0.0);
    assert e == e * e;
    assert e * (e - 1.0) == 0.0;
  }

  /** exp(x) * exp(-x) == 1 */
  lemma ExpNegInverse(m: ExpLn, x: real)
    requires Lawful(m)
    ensures m.Exp(x) * m.Exp(-x) == 1.0
  {
    ExpAdd(m, x, -x);
    ExpZero(m);
  }

  /** The logarithm of a quotient of positive numbers. */
  lemma LnQuotient(m: ExpLn, x: real, y: real)
    requires Lawful(m) && x > 0.0 && y > 0.0
    ensures m.Ln(x / y) == m.Ln(x) - m.Ln(y)
  {
    var d := m.Ln(x) - m.Ln(y);
    ExpAdd(m, d, m.Ln(y));
    assert d + m.Ln(y) == m.Ln(x);
    ExpLnOfPositive(m, x);
    ExpLnOfPositive(m, y);
    assert m.Exp(d) * y == x;
    assert m.Exp(d) == x / y;
    LnExp(m, d);
  }

  /** The logarithm of a product of positive numbers. */
  lemma LnProduct(m: ExpLn, x: real, y: real)
    requires Lawful(m) && x > 0.0 && y > 0.0
    ensures m.Ln(x * y) == m.Ln(x) + m.Ln(y)
  {
    ExpAdd(m, m.Ln(x), m.Ln(y));
    ExpLnOfPositive(m, x);
    ExpLnOfPositive(m, y);
    assert m.Exp(m.Ln(x) + m.Ln(y)) == x * y;
    LnExp(m, m.Ln(x) + m.Ln(y));
  }

  /** Sum of a sequence, accumulated from the front. */
  function Sum(s: seq<real>): real
  {
    if s == [] then 0.0 else Sum(s[..|s| - 1]) + s[|s| - 1]
  }

  /** The arithmetic mean; the mean of an empty sample is NaN in Java, so the
      callers only ask for non-empty ones. */
  function Mean(s: seq<real>): real
    requires |s| > 0
  {
    Sum(s) / |s| as real
  }

  lemma {:induction false} SumConstant(s: seq<real>, c: real)
    requires forall i :: 0 <= i < |s| ==> s[i] == c
    ensures Sum(s) == |s| as real * c
  {
    if s != [] {
      SumConstant(s[..|s| - 1], c);
    }
  }

  /** A sample whose every element is c has mean c. */
  lemma MeanConstant(s: seq<real>, c: real)
    requires |s| > 0
    requires forall i :: 0 <= i < |s| ==> s[i] == c
    ensures Mean(s) == c
  {
    SumConstant(s, c);
  }
}

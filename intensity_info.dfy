/** IntensityInfo: the (A, k) snapshot of both sides and the two dual
    queries of the model λ(δ) = A·e^(−kδ). */
module IntensityModel {
  import opened Wrappers
  import opened RealMath

  /** Execution intensity λ of an order quoted at distance δ from the mid. */
  function GetIntensity(targetSpread: real, a: real, k: real, m: ExpLn): real
  {
    a * m.Exp(-k * targetSpread)
  }

  /** Distance δ at which the target intensity λ is reached: −ln(λ/A)/k.
      Java returns NaN or an infinity when A or k is zero or λ/A is not
      positive; those inputs give None. */
  function GetSpread(targetIntensity: real, a: real, k: real, m: ExpLn): (r: Option<real>)
    ensures r.Some? <==> a != 0.0 && k != 0.0 && targetIntensity / a > 0.0
  {
    if a != 0.0 && k != 0.0 && targetIntensity / a > 0.0 then
      Some(-m.Ln(targetIntensity / a) / k)
    else
      None
  }

  /** With A > 0 the model intensity is positive at every distance. */
  lemma IntensityPositive(targetSpread: real, a: real, k: real, m: ExpLn)
    requires Lawful(m) && a > 0.0
    ensures GetIntensity(targetSpread, a, k, m) > 0.0
  {
    ExpPos(m, -k * targetSpread);
  }

  /** Spread of the intensity of δ is δ again. */
  lemma SpreadOfIntensity(spread: real, a: real, k: real, m: ExpLn)
    requires Lawful(m) && a != 0.0 && k != 0.0
    ensures GetSpread(GetIntensity(spread, a, k, m), a, k, m) == Some(spread)
  {
    var e := m.Exp(-k * spread);
    ExpPos(m, -k * spread);
    assert GetIntensity(spread, a, k, m) / a == e;
    LnExp(m, -k * spread);
    var l := GetIntensity(spread, a, k, m);
    assert m.Ln(l / a) == -k * spread;
    assert -(-k * spread) / k == spread;
    assert GetSpread(l, a, k, m) == Some(-m.Ln(l / a) / k);
  }

  /** Intensity of the spread of λ is λ again, whenever that spread exists. */
  lemma IntensityOfSpread(intensity: real, a: real, k: real, m: ExpLn)
    requires Lawful(m) && a != 0.0 && k != 0.0 && intensity / a > 0.0
    ensures GetSpread(intensity, a, k, m).Some?
    ensures GetIntensity(GetSpread(intensity, a, k, m).value, a, k, m) == intensity
  {
    var q := intensity / a;
    var d := -m.Ln(q) / k;
    assert GetSpread(intensity, a, k, m) == Some(d);
    assert -k * d == m.Ln(q);
    ExpLnOfPositive(m, q);
    assert m.Exp(-k * d) == q;
    assert a * q == intensity;
    UnfoldIntensity(d, a, k, m);
  }

  lemma UnfoldIntensity(d: real, a: real, k: real, m: ExpLn)
    ensures GetIntensity(d, a, k, m) == a * m.Exp(-k * d)
  {
  }

  /** getIntensity on the parameters of a snapshot. A parameter that is NaN
      in Java is None, and NaN makes the whole product NaN. */
  function IntensityOf(spread: real, a: Option<real>, k: Option<real>, m: ExpLn): (r: Option<real>)
    ensures r.Some? <==> a.Some? && k.Some?
    ensures r.Some? ==> r.value == GetIntensity(spread, a.value, k.value, m)
  {
    if a.Some? && k.Some? then Some(GetIntensity(spread, a.value, k.value, m)) else None
  }

  /** getSpread on the parameters of a snapshot. */
  function SpreadOf(intensity: real, a: Option<real>, k: Option<real>, m: ExpLn): (r: Option<real>)
    ensures a.Some? && k.Some? ==> r == GetSpread(intensity, a.value, k.value, m)
    ensures a.None? || k.None? ==> r.None?
  {
    if a.Some? && k.Some? then GetSpread(intensity, a.value, k.value, m) else None
  }

  /** The estimate of one call: A and k for buy and for sell limit orders.
      Java keeps whatever doubles the solvers answered; a NaN parameter is
      None here, and each side stands on its own. */
  datatype IntensityInfo = IntensityInfo(buyA: Option<real>, buyK: Option<real>, sellA: Option<real>, sellK: Option<real>)
  {
    function SellFillIntensity(spread: real, m: ExpLn): Option<real> { IntensityOf(spread, sellA, sellK, m) }

    function BuyFillIntensity(spread: real, m: ExpLn): Option<real> { IntensityOf(spread, buyA, buyK, m) }

    function SellSpread(intensity: real, m: ExpLn): Option<real> { SpreadOf(intensity, sellA, sellK, m) }

    function BuySpread(intensity: real, m: ExpLn): Option<real> { SpreadOf(intensity, buyA, buyK, m) }
  }

  /** The array constructor: each side's array holds A at index 0 and k at
      index 1 (a shorter array throws in Java). */
  function FromArrays(buyAk: seq<Option<real>>, sellAk: seq<Option<real>>): IntensityInfo
    requires |buyAk| >= 2 && |sellAk| >= 2
  {
    IntensityInfo(buyAk[0], buyAk[1], sellAk[0], sellAk[1])
  }

  /** Built from two [A, k] arrays, the buy queries answer from the buy
      array alone and the sell queries from the sell array alone: replacing
      the other side's array changes nothing, so a finite side still answers
      when the other side's estimate is NaN. */
  lemma SidesStandAlone(buyAk: seq<Option<real>>, sellAk: seq<Option<real>>, otherBuyAk: seq<Option<real>>,
                        otherSellAk: seq<Option<real>>, spread: real, intensity: real, m: ExpLn)
    requires |buyAk| >= 2 && |sellAk| >= 2 && |otherBuyAk| >= 2 && |otherSellAk| >= 2
    ensures FromArrays(buyAk, sellAk).BuyFillIntensity(spread, m) == FromArrays(buyAk, otherSellAk).BuyFillIntensity(spread, m)
    ensures FromArrays(buyAk, sellAk).BuySpread(intensity, m) == FromArrays(buyAk, otherSellAk).BuySpread(intensity, m)
    ensures FromArrays(buyAk, sellAk).SellFillIntensity(spread, m) == FromArrays(otherBuyAk, sellAk).SellFillIntensity(spread, m)
    ensures FromArrays(buyAk, sellAk).SellSpread(intensity, m) == FromArrays(otherBuyAk, sellAk).SellSpread(intensity, m)
    ensures buyAk[0].Some? && buyAk[1].Some? ==>
              FromArrays(buyAk, sellAk).BuyFillIntensity(spread, m) == Some(GetIntensity(spread, buyAk[0].value, buyAk[1].value, m))
    ensures sellAk[0].Some? && sellAk[1].Some? ==>
              FromArrays(buyAk, sellAk).SellFillIntensity(spread, m) == Some(GetIntensity(spread, sellAk[0].value, sellAk[1].value, m))
  {
  }

  /** The snapshot's getters invert each other on either side whose A and k
      are finite and non-zero. */
  lemma InfoRoundTrip(info: IntensityInfo, spread: real, m: ExpLn)
    requires Lawful(m)
    ensures info.buyA.Some? && info.buyK.Some? && info.buyA.value != 0.0 && info.buyK.value != 0.0 ==>
              info.BuySpread(info.BuyFillIntensity(spread, m).value, m) == Some(spread)
    ensures info.sellA.Some? && info.sellK.Some? && info.sellA.value != 0.0 && info.sellK.value != 0.0 ==>
              info.SellSpread(info.SellFillIntensity(spread, m).value, m) == Some(spread)
  {
    if info.buyA.Some? && info.buyK.Some? && info.buyA.value != 0.0 && info.buyK.value != 0.0 {
      SpreadOfIntensity(spread, info.buyA.value, info.buyK.value, m);
    }
    if info.sellA.Some? && info.sellK.Some? && info.sellA.value != 0.0 && info.sellK.value != 0.0 {
      SpreadOfIntensity(spread, info.sellA.value, info.sellK.value, m);
    }
  }

  /** With the same A and k on both sides, buy and sell answers agree. */
  lemma SymmetricInfoAgrees(a: Option<real>, k: Option<real>, spread: real, intensity: real, m: ExpLn)
    ensures IntensityInfo(a, k, a, k).BuyFillIntensity(spread, m) == IntensityInfo(a, k, a, k).SellFillIntensity(spread, m)
    ensures IntensityInfo(a, k, a, k).BuySpread(intensity, m) == IntensityInfo(a, k, a, k).SellSpread(intensity, m)
  {
  }
}

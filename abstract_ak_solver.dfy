/** What every A/k solver shares: the spread specification it is built over,
    stored as absolute distances from the mid price. */
module AkSpreads {

  function Abs(x: real): (r: real)
    ensures r >= 0.0 && (r == x || r == -x)
  {
    if x < 0.0 then -x else x
  }

  /** The spread specification a solver stores: each spread by its distance
      from the mid, whatever side it was quoted on. The stored value is a new
      sequence, so the caller's array is neither changed nor shared. */
  function AbsSpreads(spec: seq<real>): (r: seq<real>)
    ensures |r| == |spec|
    ensures forall i :: 0 <= i < |r| ==> r[i] >= 0.0 && (r[i] == spec[i] || r[i] == -spec[i])
  {
    seq(|spec|, i requires 0 <= i < |spec| => Abs(spec[i]))
  }

  /** Negating every spread leaves the stored specification as it was; this
      is why the buy ladder and the sell ladder give their solvers the same
      spreads. */
  lemma AbsSpreadsOfNegated(spec: seq<real>, neg: seq<real>)
    requires |neg| == |spec|
    requires forall i :: 0 <= i < |spec| ==> neg[i] == -spec[i]
    ensures AbsSpreads(neg) == AbsSpreads(spec)
  {
  }

  /** A specification of spreads that are already distances is stored as it
      is. */
  lemma AbsSpreadsOfNonNegative(spec: seq<real>)
    requires forall i :: 0 <= i < |spec| ==> spec[i] >= 0.0
    ensures AbsSpreads(spec) == spec
  {
  }
}

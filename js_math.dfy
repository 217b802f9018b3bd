/** `Math.min(...xs)` and `Math.max(...xs)` over lists of prices. On an empty
    list JavaScript answers `Infinity` and `-Infinity`, which every comparison
    with a finite bound then gets "wrong" in a useful way; `Extended` keeps
    those two values. */
module JsMath {
  datatype Extended = NegInfinity | Finite(value: real) | PosInfinity

  /** `a < b` for a finite `b`. */
  predicate Below(a: Extended, b: real) {
    a.NegInfinity? || (a.Finite? && a.value < b)
  }

  /** `a > b` for a finite `b`. */
  predicate Above(a: Extended, b: real) {
    a.PosInfinity? || (a.Finite? && a.value > b)
  }

  /** `Math.min(...xs)`: the least element, or `Infinity` for no elements. */
  function Min(xs: seq<real>): (r: Extended)
    ensures xs == [] <==> r == PosInfinity
    ensures !r.NegInfinity?
    ensures r.Finite? ==> (exists k :: 0 <= k < |xs| && xs[k] == r.value)
    ensures r.Finite? ==> forall k :: 0 <= k < |xs| ==> r.value <= xs[k]
  {
    if |xs| == 0 then PosInfinity
    else
      var m := Min(xs[1..]);
      assert forall k :: 1 <= k < |xs| ==> xs[k] == xs[1..][k - 1];
      if m.PosInfinity? || xs[0] <= m.value then Finite(xs[0]) else m
  }

  /** `Math.max(...xs)`: the greatest element, or `-Infinity` for no elements. */
  function Max(xs: seq<real>): (r: Extended)
    ensures xs == [] <==> r == NegInfinity
    ensures !r.PosInfinity?
    ensures r.Finite? ==> (exists k :: 0 <= k < |xs| && xs[k] == r.value)
    ensures r.Finite? ==> forall k :: 0 <= k < |xs| ==> xs[k] <= r.value
  {
    if |xs| == 0 then NegInfinity
    else
      var m := Max(xs[1..]);
      assert forall k :: 1 <= k < |xs| ==> xs[k] == xs[1..][k - 1];
      if m.NegInfinity? || xs[0] >= m.value then Finite(xs[0]) else m
  }

  /** The minimum is below a bound exactly when some element is. */
  lemma MinBelowIff(xs: seq<real>, bound: real)
    ensures Below(Min(xs), bound) <==> exists k :: 0 <= k < |xs| && xs[k] < bound
  {
    if exists k :: 0 <= k < |xs| && xs[k] < bound {
      var k :| 0 <= k < |xs| && xs[k] < bound;
      assert Min(xs).value <= xs[k];
    }
  }

  /** The maximum is above a bound exactly when some element is. */
  lemma MaxAboveIff(xs: seq<real>, bound: real)
    ensures Above(Max(xs), bound) <==> exists k :: 0 <= k < |xs| && xs[k] > bound
  {
    if exists k :: 0 <= k < |xs| && xs[k] > bound {
      var k :| 0 <= k < |xs| && xs[k] > bound;
      assert xs[k] <= Max(xs).value;
    }
  }
}

/**
 * JavaScript numbers as `parseFloat` and `Math.min`/`Math.max` produce them.
 * A finite double is idealised as an exact `real`; the three non-finite values
 * are kept because the handlers of script.js test for them.
 */
module JsNumber {
  datatype Number = Finite(value: real) | NaN | PosInfinity | NegInfinity

  /** The order of `<=` on non-NaN numbers, the infinities at the two ends. */
  predicate LessEq(a: Number, b: Number)
    requires !a.NaN? && !b.NaN?
  {
    a.NegInfinity? || b.PosInfinity? || (a.Finite? && b.Finite? && a.value <= b.value)
  }

  /** `Math.min(a, b)`: NaN when either argument is NaN, otherwise the smaller argument. */
  function Min(a: Number, b: Number): (r: Number)
    ensures r.NaN? <==> a.NaN? || b.NaN?
    ensures !r.NaN? ==> (r == a || r == b) && LessEq(r, a) && LessEq(r, b)
  {
    if a.NaN? || b.NaN? then NaN
    else if LessEq(a, b) then a
    else b
  }

  /** `Math.max(a, b)`: NaN when either argument is NaN, otherwise the larger argument. */
  function Max(a: Number, b: Number): (r: Number)
    ensures r.NaN? <==> a.NaN? || b.NaN?
    ensures !r.NaN? ==> (r == a || r == b) && LessEq(a, r) && LessEq(b, r)
  {
    if a.NaN? || b.NaN? then NaN
    else if LessEq(a, b) then b
    else a
  }
}

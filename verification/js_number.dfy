/**
 * JavaScript numbers where the source can meet values that are not finite
 * (parsed environment variables, scroll positions). Finite values are exact
 * reals; IEEE-754 rounding is not modelled.
 */
module JsNumber {

  datatype Num = Finite(v: real) | PosInf | NegInf | NaN

  /** `a < b` on JavaScript numbers: false whenever either side is NaN. */
  predicate Less(a: Num, b: Num) {
    match (a, b)
    case (NaN, _) => false
    case (_, NaN) => false
    case (NegInf, NegInf) => false
    case (NegInf, _) => true
    case (PosInf, _) => false
    case (Finite(x), Finite(y)) => x < y
    case (Finite(_), PosInf) => true
    case (Finite(_), NegInf) => false
  }

  /** `Math.max(a, b)`: NaN when either argument is NaN. */
  function Max(a: Num, b: Num): (r: Num)
    ensures (a.NaN? || b.NaN?) <==> r.NaN?
    ensures !r.NaN? ==> (r == a || r == b) && !Less(r, a) && !Less(r, b)
  {
    if a.NaN? || b.NaN? then NaN else if Less(a, b) then b else a
  }

  /** `Math.min(a, b)`: NaN when either argument is NaN. */
  function Min(a: Num, b: Num): (r: Num)
    ensures (a.NaN? || b.NaN?) <==> r.NaN?
    ensures !r.NaN? ==> (r == a || r == b) && !Less(a, r) && !Less(b, r)
  {
    if a.NaN? || b.NaN? then NaN else if Less(b, a) then b else a
  }

  /** JavaScript truthiness of a number: everything but 0 and NaN. */
  predicate Truthy(a: Num) {
    !(a == Finite(0.0) || a.NaN?)
  }
}

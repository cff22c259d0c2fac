/** The few JavaScript value semantics the appearance stores rely on:
    truthiness (`!!v`, `v || d`), numbers with infinities and NaN, and
    `Math.max` / `Math.min` on them. */
module JsValues {

  datatype Option<T> = None | Some(value: T)

  /** A JavaScript number: a finite value (the sign of zero is not kept),
      one of the two infinities, or NaN. */
  datatype JsNumber = Finite(x: real) | PosInfinity | NegInfinity | NaN

  /** A JavaScript value as far as coercion to boolean can tell values apart. */
  datatype JsValue = Undefined | Null | Bool(b: bool) | Number(n: JsNumber) | Str(s: string) | Object

  /** ToBoolean: the coercion behind `!!v` and the test in `v || d`. */
  predicate Truthy(v: JsValue)
    ensures !Truthy(v) <==> v in {Undefined, Null, Bool(false), Number(Finite(0.0)), Number(NaN), Str("")}
  {
    match v
    case Undefined => false
    case Null => false
    case Bool(b) => b
    case Number(n) => !n.NaN? && n != Finite(0.0)
    case Str(s) => |s| > 0
    case Object => true
  }

  /** `v || d`: the left operand when it is truthy, otherwise the right one. */
  function Or(v: JsValue, d: JsValue): (r: JsValue)
    ensures r == v || r == d
    ensures Truthy(r) <==> Truthy(v) || Truthy(d)
    ensures Truthy(v) ==> r == v
  {
    if Truthy(v) then v else d
  }

  /** The order `<=` on numbers other than NaN (NaN is unordered). */
  predicate LessEq(a: JsNumber, b: JsNumber)
  {
    match (a, b)
    case (NaN, _) => false
    case (_, NaN) => false
    case (NegInfinity, _) => true
    case (_, PosInfinity) => true
    case (Finite(x), Finite(y)) => x <= y
    case _ => false
  }

  /** `Math.max(a, b)`: NaN when either argument is NaN, otherwise the larger argument. */
  function MathMax(a: JsNumber, b: JsNumber): (r: JsNumber)
    ensures r.NaN? <==> a.NaN? || b.NaN?
    ensures !r.NaN? ==> LessEq(a, r) && LessEq(b, r) && (r == a || r == b)
  {
    if a.NaN? || b.NaN? then NaN else if LessEq(a, b) then b else a
  }

  /** `Math.min(a, b)`: NaN when either argument is NaN, otherwise the smaller argument. */
  function MathMin(a: JsNumber, b: JsNumber): (r: JsNumber)
    ensures r.NaN? <==> a.NaN? || b.NaN?
    ensures !r.NaN? ==> LessEq(r, a) && LessEq(r, b) && (r == a || r == b)
  {
    if a.NaN? || b.NaN? then NaN else if LessEq(a, b) then a else b
  }
}

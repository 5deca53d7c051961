/**
  JavaScript numbers as the ratio engine uses them. A finite double is
  abstracted to an exact real (IEEE-754 rounding and overflow are not
  modelled); the three non-finite doubles are kept as their own values so
  that `isFinite` and the `||` fallback can be stated exactly.
 */
module JsNumber {

  /** A JavaScript `number`: finite, +Infinity, -Infinity or NaN. */
  datatype Num = Fin(v: real) | PosInf | NegInf | NaN

  /** The global `isFinite` applied to a number. */
  predicate IsFinite(x: Num) {
    x.Fin?
  }

  /** Unary minus. */
  function Neg(x: Num): (r: Num)
    ensures IsFinite(r) <==> IsFinite(x)
    ensures r == NaN <==> x == NaN
  {
    match x
    case Fin(a) => Fin(-a)
    case PosInf => NegInf
    case NegInf => PosInf
    case NaN => NaN
  }

  /** `x + y`: NaN is absorbing, opposite infinities give NaN. */
  function Add(x: Num, y: Num): (r: Num)
    ensures IsFinite(r) <==> IsFinite(x) && IsFinite(y)
    ensures r == NaN <==> x == NaN || y == NaN || (x == PosInf && y == NegInf) || (x == NegInf && y == PosInf)
    ensures IsFinite(x) && IsFinite(y) ==> r.v == x.v + y.v
  {
    if x == NaN || y == NaN then NaN
    else if x.Fin? && y.Fin? then Fin(x.v + y.v)
    else if (x == PosInf && y == NegInf) || (x == NegInf && y == PosInf) then NaN
    else if x == PosInf || y == PosInf then PosInf
    else NegInf
  }

  /** `x - y`, which IEEE-754 defines as `x + (-y)`. */
  function Sub(x: Num, y: Num): (r: Num)
    ensures IsFinite(r) <==> IsFinite(x) && IsFinite(y)
    ensures IsFinite(x) && IsFinite(y) ==> r.v == x.v - y.v
  {
    Add(x, Neg(y))
  }

  /** The number is positive: +Infinity or a finite amount above 0. */
  predicate Positive(x: Num) {
    x == PosInf || (x.Fin? && x.v > 0.0)
  }

  /** `x * y`: NaN is absorbing, an infinity times zero is NaN, otherwise an
      infinite factor gives the infinity of the product's sign. */
  function Mul(x: Num, y: Num): (r: Num)
    ensures IsFinite(r) <==> IsFinite(x) && IsFinite(y)
    ensures r == NaN <==> x == NaN || y == NaN || (!IsFinite(x) && y == Fin(0.0)) || (x == Fin(0.0) && !IsFinite(y))
    ensures IsFinite(x) && IsFinite(y) ==> r.v == x.v * y.v
  {
    if x == NaN || y == NaN then NaN
    else if x.Fin? && y.Fin? then Fin(x.v * y.v)
    else if x == Fin(0.0) || y == Fin(0.0) then NaN
    else if Positive(x) == Positive(y) then PosInf
    else NegInf
  }

  /** What a property read `obj.key` yields: `undefined` or a number. */
  datatype Value = Undefined | Number(n: Num)

  /** JavaScript truthiness of a property value: `undefined`, `0` and `NaN`
      are falsy, every other number (the infinities included) is truthy. */
  predicate Truthy(x: Value) {
    x.Number? && x.n != Fin(0.0) && x.n != NaN
  }

  /** `x || y`: the left operand when it is truthy, else the right one. */
  function Or(x: Value, y: Value): (r: Value)
    ensures Truthy(r) <==> Truthy(x) || Truthy(y)
    ensures r == x || r == y
    ensures Truthy(x) ==> r == x
    ensures !Truthy(x) ==> r == y
  {
    if Truthy(x) then x else y
  }

  /** `x || 0`: the value read when it is truthy, the number 0 otherwise. */
  function OrZero(x: Value): (r: Num)
    ensures r != NaN
    ensures Number(r) == Or(x, Number(Fin(0.0)))
  {
    if Truthy(x) then x.n else Fin(0.0)
  }
}

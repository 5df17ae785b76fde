/// The JavaScript values the panel's configuration and the chart options carry,
/// and the few language rules (truthiness, string conversion, `/`) the panel relies on.
module JsValues {

  datatype Option<+T> = None | Some(value: T)

  /** A JavaScript number, as `parseFloat` and `/` produce it. */
  datatype JsNumber = NaN | Infinite(negative: bool) | Finite(r: real)

  /** The values a configuration entry can hold. */
  datatype JsValue = Undefined | Null | Bool(b: bool) | Num(n: JsNumber) | Str(s: string)

  /** JavaScript truthiness, as an `if` or an `&&` tests a value. */
  predicate Truthy(v: JsValue)
  {
    match v
    case Undefined => false
    case Null => false
    case Bool(b) => b
    case Num(n) => n.Infinite? || (n.Finite? && n.r != 0.0)
    case Str(s) => s != ""
  }

  /** The string conversion of a string or `undefined`: what a template
      literal prints and what a property key becomes. */
  function JsString(x: Option<string>): string
  {
    match x
    case Some(s) => s
    case None => "undefined"
  }

  /** The ToNumber conversion that `/` applies to its left operand; how a
      string converts is left to `stringToNumber`. */
  function ToNumber(v: JsValue, stringToNumber: string -> JsNumber): JsNumber
  {
    match v
    case Undefined => NaN
    case Null => Finite(0.0)
    case Bool(b) => if b then Finite(1.0) else Finite(0.0)
    case Num(n) => n
    case Str(s) => stringToNumber(s)
  }

  /** Division of a number by a positive constant. */
  function Divide(n: JsNumber, d: real): JsNumber
    requires d > 0.0
  {
    match n
    case NaN => NaN
    case Infinite(neg) => Infinite(neg)
    case Finite(r) => Finite(r / d)
  }
}

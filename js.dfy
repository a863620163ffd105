/**
 * The slice of JavaScript value semantics the engine depends on: dynamically
 * shaped values (rows returned by the database, the `derived` map, the
 * context as the condition evaluator sees it), truthiness, `Number()` and NaN.
 */
module Js {

  /** A JSON-like JavaScript value. Arrays are not needed by the modelled paths. */
  datatype Value =
    | Undef
    | Null
    | Bool(b: bool)
    | Num(n: real)
    | Str(s: string)
    | Obj(fields: map<string, Value>)

  /** A JavaScript number as far as the engine can produce one: finite, or NaN. */
  datatype Number = Finite(x: real) | NaN

  /** JavaScript truthiness (`if (v)`, `v || w`). */
  predicate Truthy(v: Value) {
    match v
    case Undef => false
    case Null => false
    case Bool(b) => b
    case Num(n) => n != 0.0
    case Str(s) => s != ""
    case Obj(_) => true
  }

  /** Property read `v[key]`; reading from anything but an object yields `undefined`. */
  function Get(v: Value, key: string): Value {
    match v
    case Obj(fields) => if key in fields then fields[key] else Undef
    case _ => Undef
  }

  /**
   * `Number(v)`. The conversion of text to a number is the collaborator
   * `textToNumber`, which yields NaN for text that is not numeric.
   */
  function ToNumber(v: Value, textToNumber: string -> Number): Number {
    match v
    case Undef => NaN
    case Null => Finite(0.0)
    case Bool(b) => Finite(if b then 1.0 else 0.0)
    case Num(n) => Finite(n)
    case Str(s) => textToNumber(s)
    case Obj(_) => NaN
  }
}

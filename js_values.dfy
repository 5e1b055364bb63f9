/**
 * The values a request body field can hold, as far as the handlers inspect
 * them: JavaScript truthiness and `Number(...)` conversion.
 */
module JsValues {
  import opened Wrappers
  import Decimal

  /** A body field: absent, a JSON `null`, a string, an integer, or a boolean. */
  datatype JsValue = Undefined | Null | Str(s: string) | Num(n: int) | Bool(b: bool)

  /** JavaScript truthiness: `undefined`, `null`, `""`, `0` and `false` are falsy. */
  predicate Truthy(v: JsValue) {
    match v
    case Undefined => false
    case Null => false
    case Str(s) => s != ""
    case Num(n) => n != 0
    case Bool(b) => b
  }

  /** `Number(v)`; None stands for NaN. `Number(null)` is 0. */
  function ToNumber(v: JsValue): Option<int> {
    match v
    case Undefined => None
    case Null => Some(0)
    case Str(s) => Decimal.ParseInteger(s)
    case Num(n) => Some(n)
    case Bool(b) => Some(if b then 1 else 0)
  }

  /** Falsiness is not emptiness of the text: the form string "0" is truthy although it converts to the falsy 0. */
  lemma ZeroStringTruthy()
    ensures Truthy(Str("0")) && ToNumber(Str("0")) == Some(0) && !Truthy(Num(0))
  {
    Decimal.ParseIntegerPrinted(0);
  }

  /** A number sent as its decimal text converts back to itself. */
  lemma ToNumberPrinted(n: nat)
    ensures ToNumber(Str(Decimal.NatToString(n))) == Some(n)
    ensures ToNumber(Num(n)) == Some(n)
  {
    Decimal.ParseIntegerPrinted(n);
  }
}

/** The small part of JavaScript's value semantics the storage logic depends on. */
module JsValues {

  datatype Option<T> = None | Some(value: T)

  /**
    A number as `parseFloat` produces it. The model never computes with it:
    it only compares numbers for equality and asks whether JavaScript treats
    one as truthy. A `real` is not a double: it has no rounding and no `-0`.
  */
  datatype Num = Finite(value: real) | Infinite(negative: bool) | NaN

  /** The value of a property read: a record may lack the property (`undefined`). */
  datatype Value = Undefined | Number(n: Num) | Str(s: string)

  /** JavaScript truthiness: `undefined`, `0`, `NaN` and `''` are falsy. */
  predicate Truthy(v: Value)
  {
    match v
    case Undefined => false
    case Number(n) => !(n.NaN? || (n.Finite? && n.value == 0.0))
    case Str(s) => s != ""
  }

  /** JavaScript's `v || ''`, which the refill code applies to each field. */
  function OrEmpty(v: Value): Value
  {
    if Truthy(v) then v else Str("")
  }
}

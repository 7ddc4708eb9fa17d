/**
 * The few JavaScript value semantics the App component relies on: truthiness
 * (`if (currentArticleId)`), strict equality (`===`, `!==`) and logical not (`!`).
 * Numbers are integers here; NaN, fractions and objects are not modelled.
 */
module Js {
  /** The values an article id, an edit target or a comparison operand can take. */
  datatype Value = Undefined | Null | Bool(b: bool) | Num(n: int) | Str(s: string)

  /** `if (v)`: undefined, null, false, 0 and "" are falsy; everything else is truthy. */
  predicate Truthy(v: Value)
  {
    match v
    case Undefined => false
    case Null => false
    case Bool(b) => b
    case Num(n) => n != 0
    case Str(s) => s != ""
  }

  /** `!v` always yields a boolean. */
  function Not(v: Value): Value
  {
    Bool(!Truthy(v))
  }

  /**
   * `a === b`: same type and same value. Without NaN and without objects this is
   * structural equality of the two values.
   */
  predicate StrictEquals(a: Value, b: Value)
  {
    a == b
  }
}

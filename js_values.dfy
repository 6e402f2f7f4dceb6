/**
 * The dynamically typed values that reach the core from request bodies and
 * stored documents, with JavaScript's truthiness.
 */
module JsValues {

  datatype JsValue =
    | Undefined
    | Null
    | Bool(b: bool)
    | Num(n: real)
    | NaN
    | Str(s: string)
    | Obj

  /** What `if (v)`, `!!v` and `v || w` test. */
  predicate Truthy(v: JsValue) {
    match v
    case Undefined => false
    case Null => false
    case Bool(b) => b
    case Num(n) => n != 0.0
    case NaN => false
    case Str(s) => s != ""
    case Obj => true
  }

  /** What `v ?? w` and `v != null` test. */
  predicate Nullish(v: JsValue) {
    v.Undefined? || v.Null?
  }
}

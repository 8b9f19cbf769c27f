/** JavaScript values as the services see them: the results of JSON.parse,
    numbers with NaN and the infinities, truthiness (the `||` and `!`
    operators) and property access. */
module JsValues {

  datatype Option<+T> = None | Some(value: T)

  /** A value, or the message of the error thrown instead of returning one. */
  datatype Result<+T> = Ok(value: T) | Err(error: string)

  /** How an operation that returns nothing completed: normally, or by throwing. */
  datatype Outcome = Pass | Fail(error: string)

  /** A JavaScript number. The double is abstracted to a real; NaN and the
      two infinities are kept because the code tests for them. */
  datatype Num = Finite(r: real) | NaN | Infinity(negative: bool)

  /** A parsed JSON value (undefined is `None` in an `Option<Json>`). */
  datatype Json =
    | JNull
    | JBool(b: bool)
    | JNum(n: Num)
    | JStr(s: string)
    | JArr(items: seq<Json>)
    | JObj(fields: map<string, Json>)

  predicate TruthyNum(n: Num) {
    match n
    case Finite(r) => r != 0.0
    case NaN => false
    case Infinity(_) => true
  }

  /** JavaScript's ToBoolean of a value that may be undefined. */
  predicate Truthy(v: Option<Json>) {
    match v
    case None => false
    case Some(j) =>
      match j
      case JNull => false
      case JBool(b) => b
      case JNum(n) => TruthyNum(n)
      case JStr(s) => s != ""
      case JArr(_) => true
      case JObj(_) => true
  }

  /** Property access `j.key` on a value that is neither null nor undefined:
      undefined unless `j` is an object that has the key. */
  function Get(j: Json, key: string): Option<Json> {
    if j.JObj? && key in j.fields then Some(j.fields[key]) else None
  }

  /** `v || fallback` */
  function Or(v: Option<Json>, fallback: Json): Json {
    if Truthy(v) then v.value else fallback
  }

  /** A JSON number holding an integer. */
  function Int(i: int): Json {
    JNum(Finite(i as real))
  }

  /** `n >= k` for a JavaScript number `n` and a finite `k`. */
  predicate AtLeast(n: Num, k: real) {
    match n
    case Finite(r) => r >= k
    case NaN => false
    case Infinity(negative) => !negative
  }
}

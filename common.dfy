/** Shared value types: optional values, results of operations that can throw,
    and the JSON-shaped values that JavaScript objects carry. */
module Common {

  /** A JavaScript value that may be `null` or `undefined` (both are `None`). */
  datatype Option<+T> = None | Some(value: T)

  /** The result of an operation that either returns or throws. */
  datatype Result<+R, +E> = Success(value: R) | Failure(error: E)

  /** A JSON-like JavaScript value. Numbers are integers in this model. */
  datatype Json =
    | JNull
    | JBool(b: bool)
    | JNum(n: int)
    | JStr(s: string)
    | JArr(items: seq<Json>)
    | JObj(fields: map<string, Json>)

  /** The own enumerable properties of a plain JavaScript object. */
  type Fields = map<string, Json>
}

/** The few JavaScript notions the tree components rely on: values that may be
    `null`/`undefined`, the error raised when a property of such a value is read,
    and the truthiness of strings. */
module Js {

  /** A value that may be absent (`null` or `undefined`). */
  datatype Option<+T> = None | Some(value: T)

  /** The only error the core can raise: reading a property of `null` or `undefined`. */
  datatype JsError = TypeError

  /** How the evaluation of an expression or a call completes: with a value, or by throwing. */
  datatype Result<+T> = Ok(value: T) | Thrown(error: JsError)

  /** JavaScript truthiness of an optional string: an absent string and "" are falsy. */
  predicate TruthyString(s: Option<string>) {
    s.Some? && s.value != ""
  }
}

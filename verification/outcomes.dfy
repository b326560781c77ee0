/** Optional values, success/failure results and the JavaScript notion of a
    thrown value, shared by every other module of the model. */
module Outcomes {

  /** `undefined`/`null` versus a present value. */
  datatype Option<+T> = None | Some(value: T)

  /** The outcome of a call that may throw. */
  datatype Result<+R, +E> = Success(value: R) | Failure(error: E)

  /** A value caught by a `catch` clause: an `Error` object with a message,
      or anything else that was thrown. */
  datatype Thrown = ErrorObject(message: string) | NonError

  /** `error instanceof Error ? error.message : 'Unknown error'`, the way every
      service turns a caught value into the text of its own error. */
  function Describe(t: Thrown): (m: string)
    ensures t.ErrorObject? ==> m == t.message
    ensures t.NonError? ==> m == "Unknown error"
  {
    match t
    case ErrorObject(msg) => msg
    case NonError => "Unknown error"
  }

  /** JavaScript truthiness of an optional string (`null`, `undefined` and
      `""` are falsy). */
  predicate TruthyString(s: Option<string>) {
    s.Some? && s.value != ""
  }

  /** JavaScript truthiness of an optional integer (`null`, `undefined` and
      `0` are falsy). */
  predicate TruthyInt(n: Option<int>) {
    n.Some? && n.value != 0
  }
}

/** Small value types shared by the modules of this model. */
module Wrappers {

  /** A value that may be absent: Python's `None`, JavaScript's `null`/`undefined`. */
  datatype Option<+T> = None | Some(value: T) {
    function GetOr(default: T): T {
      match this
      case Some(v) => v
      case None => default
    }
  }

  /** The outcome of one backend call made by a dashboard store: the response body,
      or the message of the `Error` that the API wrapper throws. */
  datatype ApiResult<+T> = Success(data: T) | Failure(msg: string)

  /** What a store action hands back to its caller: its return value, or the error it rethrows. */
  datatype Outcome<+T> = Returned(value: T) | Thrown(msg: string)

  /** JavaScript truthiness of an optional string: `null`, `undefined` and `""` are falsy. */
  predicate Truthy(s: Option<string>) {
    s.Some? && s.value != ""
  }
}

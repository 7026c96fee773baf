/** Option and Result, the two shapes the JavaScript code uses for "maybe absent"
    (null / undefined) and "returned or threw". */
module Wrappers {

  datatype Option<T> = None | Some(value: T) {
    /** `x || fallback` / `x ?? fallback` for an optional value. */
    function GetOr(fallback: T): T {
      match this
      case Some(v) => v
      case None => fallback
    }
  }

  /** The outcome of an async call: the value it resolved to, or the message of
      the Error it threw. */
  datatype Result<T> = Success(value: T) | Failure(error: string)
}

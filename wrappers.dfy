/** Optional values and the outcome of an operation that may throw. */
module Wrappers {

  /** A JavaScript value that may be `null`/`undefined` (None) or present. */
  datatype Option<+T> = None | Some(value: T)
  {
    /** `x ?? fallback`. */
    function GetOr(fallback: T): T
    {
      match this
      case Some(v) => v
      case None => fallback
    }
  }

  /** The outcome of an async operation: resolves with `value`, or rejects with an
      `Error` whose message is `error`. */
  datatype Result<+T> = Ok(value: T) | Err(error: string)
}

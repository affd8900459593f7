/** Optional values and results with an error, the shapes the client uses for
    JSON keys that may be absent and for calls that may raise. */
module Wrappers {

  /** A value that may be missing, as `dict.get(key)` returning `None`. */
  datatype Option<+T> = None | Some(value: T) {

    /** `dict.get(key, default)`: the value when present, else the default. */
    function GetOr(default: T): T {
      match this
      case Some(v) => v
      case None => default
    }
  }

  /** The outcome of a call that either returns a value or raises an error. */
  datatype Result<+T, +E> = Ok(value: T) | Err(error: E)
}

/** Optional values: JavaScript's `null`/`undefined` versus a present value. */
module Wrappers {
  datatype Option<+T> = None | Some(value: T) {
    function GetOr(default: T): T {
      match this
      case Some(v) => v
      case None => default
    }
  }

  /** The outcome of an asynchronous load: a resolved value or a rejection. */
  datatype Result<+T, +E> = Ok(value: T) | Err(error: E)
}

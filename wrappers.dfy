/** Optional values and results with an error: JavaScript's `null`/`undefined`
    and thrown exceptions, made explicit. */
module Wrappers {

  datatype Option<+T> = None | Some(value: T) {
    /** The contained value, or `default` when there is none (JavaScript's `x || default`
        for a value that is always truthy when present). */
    function GetOr(default: T): T {
      match this
      case Some(v) => v
      case None => default
    }
  }

  datatype Result<+R, +E> = Success(value: R) | Failure(error: E)
}

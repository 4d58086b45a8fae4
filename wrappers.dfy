/** Optional values and success/failure outcomes, as Swift's `T?` and `throws` give them. */
module Wrappers {

  /** Swift's `T?`: `nil` or a value. */
  datatype Option<+T> = None | Some(value: T) {

    /** Swift's `??`: the value, or `default` for `nil`. */
    function GetOr(default: T): T {
      match this
      case Some(v) => v
      case None => default
    }
  }

  /** The outcome of a throwing call: its value, or the error it threw. */
  datatype Result<+T, +E> = Success(value: T) | Failure(error: E)
}

/** Swift's Optional and Result, as value types. */
module Wrappers {

  /** Swift's `Optional<T>`: `.none` or `.some(value)`. */
  datatype Option<+T> = None | Some(value: T) {

    /** Swift's `??` operator. */
    function GetOr(default: T): T {
      match this
      case Some(v) => v
      case None => default
    }
  }

  /** Swift's `Result<Success, Failure>`, as handed to a completion callback. */
  datatype Result<+R, +E> = Success(value: R) | Failure(error: E)
}

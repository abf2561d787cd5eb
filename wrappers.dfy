/** Small failure-compatible datatypes shared by the components. */
module Wrappers {

  /** A value that may be absent: JavaScript's `undefined` / `null`. */
  datatype Option<T> = None | Some(value: T) {

    /** The wrapped value, or `default` when absent (JavaScript's `??`). */
    function GetOr(default: T): T {
      if Some? then value else default
    }
  }

  /** The outcome of an operation that may throw. */
  datatype Result<T, E> = Success(value: T) | Failure(error: E)
}

/** Option and Result, the two shapes every operation of the model returns. */
module Wrappers {

  /** A value that may be absent: JavaScript's `undefined`/`null`, or a missing row. */
  datatype Option<+T> = None | Some(value: T) {

    /** The value, or `default` when absent (JavaScript's `??`). */
    function GetOr(default: T): T {
      match this
      case Some(v) => v
      case None => default
    }
  }

  /** The outcome of an operation that either yields a value or throws an error. */
  datatype Result<+R, +E> = Success(value: R) | Failure(error: E)
}

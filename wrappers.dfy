/** Option and Result, used for Ruby's nil and for the one exception a hook can raise while composing. */
module Wrappers {

  /** Some(value), or None for Ruby's nil. */
  datatype Option<+T> = None | Some(value: T)

  /** The value of a computation, or the error that aborted it. */
  datatype Result<+R, +E> = Success(value: R) | Failure(error: E)
}

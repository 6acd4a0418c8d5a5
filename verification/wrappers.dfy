/** `Option` for values JavaScript may leave `undefined`, `Result` for
    computations that may throw. */
module Wrappers {

  datatype Option<+T> = None | Some(value: T)

  /** `Failure` carries the message of the error that was thrown. */
  datatype Result<+R, +E> = Success(value: R) | Failure(error: E)
}

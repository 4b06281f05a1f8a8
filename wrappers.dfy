/** Option and Result types shared by the other modules. */
module Wrappers {

  /** A value that may be absent: the outcome of a parse that can fail. */
  datatype Option<+T> = None | Some(value: T)

  /** A value or the reason there is none: the outcome of a validation. */
  datatype Result<+T, +E> = Success(value: T) | Failure(error: E)
}

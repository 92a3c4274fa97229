/** Failure-carrying datatypes shared by the other modules. */
module Wrappers {

  /** A value that may be absent; Go's nil `error` is `None`. */
  datatype Option<+T> = None | Some(value: T)

  /** Either a value or a failure description. */
  datatype Result<+R, +E> = Success(value: R) | Failure(error: E)
}

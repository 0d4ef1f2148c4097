/** Option and Result, the two failure-carrying datatypes the model is written with. */
module Wrappers {

  /** A value that may be absent; Python's `None` return. */
  datatype Option<+T> = None | Some(value: T)

  /** The outcome of a call into the cluster API: a value, or the error it raised. */
  datatype Result<+R, +E> = Success(value: R) | Failure(error: E)
}

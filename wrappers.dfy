/** Optional values and results with an error, used for the context lookup. */
module Wrappers {

  /** A value that may be absent; `None` stands for an undefined context. */
  datatype Option<+T> = None | Some(value: T)

  /** The outcome of an operation that can fail with an error of type `E`. */
  datatype Result<+R, +E> = Success(value: R) | Failure(error: E)
}

/** Optional values and results with an error, shared by every module of the model. */
module Wrappers {

  /** A value that may be absent: a dictionary lookup that finds nothing, an
      environment variable that is not set, `None` in the source. */
  datatype Option<+T> = None | Some(value: T)

  /** The outcome of an operation that can fail: `Failure` stands for the raised exception. */
  datatype Result<+T, +E> = Success(value: T) | Failure(error: E)
}

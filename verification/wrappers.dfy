/** Java's nullable references and thrown exceptions, as values. */
module Wrappers {

  /** A reference that may be null. */
  datatype Option<+T> = None | Some(value: T)

  /** The normal return of a call, or the exception it threw. */
  datatype Result<+R, +E> = Success(value: R) | Failure(error: E)
}

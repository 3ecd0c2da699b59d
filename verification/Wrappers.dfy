/** Outcome datatypes shared by every module. */
module Wrappers {

  datatype Option<+T> = None | Some(value: T)

  /** A call that either returns a value or raises one of the repository's errors. */
  datatype Result<+T, +E> = Success(value: T) | Failure(error: E)
}

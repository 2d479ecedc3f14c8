/** The Option and Result datatypes the console model uses. */
module Wrappers {

  /** A value that may be absent. */
  datatype Option<+T> = None | Some(value: T)

  /** Either a value or the error that stopped it from being produced. */
  datatype Result<+R, +E> = Success(value: R) | Failure(error: E)
}

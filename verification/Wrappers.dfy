/** The two result types shared by every module of the project. */
module Wrappers {

  datatype Option<+T> = None | Some(value: T)

  /** A value, or the exception the program raises instead. */
  datatype Result<+T, +E> = Success(value: T) | Failure(error: E)
}

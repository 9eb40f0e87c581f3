/** Option, Result and Outcome wrappers used by every module of the analyzer model. */
module Wrappers {

  /** A value that may be missing: Python's None, TypeScript's null. */
  datatype Option<T> = None | Some(value: T)

  /** A value or the error that prevented computing it. */
  datatype Result<T, E> = Success(value: T) | Failure(error: E)

  /** Success without a value, or the error raised instead. */
  datatype Outcome<E> = Pass | Fail(error: E)
}

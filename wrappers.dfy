/** Option, Result and Outcome: PHP's null/false returns and thrown exceptions as values. */
module Wrappers {

  datatype Option<+T> = None | Some(value: T)

  /** A value, or the exception the PHP code throws instead of returning one. */
  datatype Result<+T, +E> = Success(value: T) | Failure(error: E)

  /** A void PHP method: it returns normally, or throws. */
  datatype Outcome<+E> = Pass | Fail(error: E)
}

/** Failure-carrying result types used where the Java code throws an exception
    that a caller may observe (IllegalArgumentException, IllegalStateException,
    NoSuchElementException). */
module Wrappers {

  datatype Option<+T> = None | Some(value: T) {
    function GetOr(default: T): T {
      match this
      case Some(v) => v
      case None => default
    }
  }

  datatype Result<+R, +E> = Success(value: R) | Failure(error: E)

  datatype Outcome<+E> = Pass | Fail(error: E)
}

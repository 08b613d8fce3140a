/** Optional values and the outcome of an operation that can fail. */
module Wrappers {

  /** A value that may be absent: a field missing from a document, a lookup that found nothing. */
  datatype Option<T> = None | Some(value: T) {
    function GetOr(default: T): T {
      match this
      case Some(v) => v
      case None => default
    }
  }

  /** The result of an operation that either produces a value or raises an error. */
  datatype Result<T, E> = Success(value: T) | Failure(error: E) {
    predicate IsFailure() { Failure? }
  }

  /** The result of an operation that produces nothing but may raise an error. */
  datatype Outcome<E> = Pass | Fail(error: E) {
    predicate IsFailure() { Fail? }
  }
}

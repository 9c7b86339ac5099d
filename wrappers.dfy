/** Failure-carrying values that stand for Python's None and for raised exceptions. */
module Wrappers {

  /** A value that may be absent (Python's `None`). */
  datatype Option<T> = None | Some(value: T)

  /** A value, or the exception raised instead of returning it. */
  datatype Result<T, E> = Success(value: T) | Failure(error: E)

  /** The outcome of a call that returns nothing: it either returns or raises. */
  datatype Outcome<E> = Pass | Fail(error: E)
}

// Option, Result and Outcome: the shapes of Go's `(value, error)` and `error` returns.
module Wrappers {
  datatype Option<T> = None | Some(value: T)

  datatype Result<T, E> = Ok(value: T) | Err(error: E)
  {
    predicate IsFailure() { Err? }
  }

  /** The result of a Go function that returns only an `error`. */
  datatype Outcome<E> = Pass | Fail(error: E)
}

/** Failure-carrying values used in place of Go's `(value, error)` returns. */
module Results {

  datatype Option<+T> = None | Some(value: T)

  /** The outcome of a Go call that returns a value and an `error`. */
  datatype Result<+T, +E> = Success(value: T) | Failure(error: E)
}

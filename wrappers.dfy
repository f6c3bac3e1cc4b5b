/** Failure-compatible result types used by the adorner model. */
module Wrappers {

  /** A value that may be absent, as returned by an indexed lookup. */
  datatype Option<T> = None | Some(value: T)

  /** Either a constructed value or the error a constructor would throw. */
  datatype Result<T, E> = Success(value: T) | Failure(error: E)
}

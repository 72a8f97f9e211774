/** Optional values and results with an error, as used by the prompt generator model. */
module Wrappers {

  /** A value that may be absent: an omitted command-line argument, a search that found nothing. */
  datatype Option<+T> = None | Some(value: T)

  /** The outcome of an operation that either yields a value or raises an error. */
  datatype Result<+R, +E> = Success(value: R) | Failure(error: E)
}

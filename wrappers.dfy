/** Optional values and success-or-error results, used for Go's nil-able
    pointers and errors and for its (value, error) return pairs. */
module Wrappers {

  /** A value that may be absent; None plays the part of Go's nil. */
  datatype Option<+T> = None | Some(value: T)

  /** Either a value or the error that prevented it. */
  datatype Result<+T, +E> = Success(value: T) | Failure(error: E)
}

/** Optional values and results, the model's stand-ins for Go's nil pointers and (value, error) pairs. */
module Wrappers {

  /** A value that may be absent: a Go pointer field that may be nil. */
  datatype Option<+T> = None | Some(value: T)

  /** Either a value or an error, never both: a Go (value, error) return. */
  datatype Result<+T, +E> = Success(value: T) | Failure(error: E)
}

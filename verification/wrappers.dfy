/** Optional values and results, the shapes Go expresses with nil and (value, error) pairs. */
module Wrappers {

  datatype Option<+T> = None | Some(value: T)

  /** The outcome of a Go call returning `(T, error)`: a value, or the error's text. */
  datatype Result<+T> = Success(value: T) | Failure(error: string)

  /** A Go `error` that may be nil: `Pass` is nil, `Fail` carries the error's text. */
  datatype Outcome = Pass | Fail(error: string)
}

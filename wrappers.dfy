/** Optional values and fallible results, used for Go's `(value, ok)` and
    `(value, err)` returns throughout the model. */
module Wrappers {

  datatype Option<+T> = None | Some(value: T)

  /** The outcome of a Go call returning `(T, error)`: a value, or an error
      carrying the message Go's `err.Error()` would print. */
  datatype Result<+T> = Ok(value: T) | Err(msg: string)
}

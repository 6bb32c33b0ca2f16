/** Option and Result, the two wrappers the model uses for Kotlin's nullable
    values and for operations that throw. */
module Wrappers {

  /** A Kotlin `T?`: absent (null) or present. */
  datatype Option<+T> = None | Some(value: T)

  /** The outcome of an operation that either returns a value or throws. */
  datatype Result<+T, +E> = Ok(value: T) | Err(error: E)
}

/** Failure-compatible result types shared by the identifier builder and the registry. */
module Wrappers {

  /** A value that may be absent; `None` plays the role of PHP's `false` from `has_filter`. */
  datatype Option<+T> = None | Some(value: T)

  /** The value of an operation that can fail with an error of type `E`. */
  datatype Result<+T, +E> = Ok(value: T) | Err(error: E)

  /** The outcome of an operation with no value but a possible failure. */
  datatype Outcome<+E> = Pass | Fail(error: E)
}

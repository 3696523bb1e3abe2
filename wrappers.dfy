/** Option and Result: JavaScript's `undefined`/`null` fields and thrown errors. */
module Wrappers {

  /** An optional value: `None` is an absent (undefined) property. */
  datatype Option<+T> = None | Some(value: T)

  /** The outcome of an operation that may throw: `Err` carries the error message. */
  datatype Result<+T, +E> = Ok(value: T) | Err(error: E)
}

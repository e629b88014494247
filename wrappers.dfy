/** Option and Result: a Java reference that may be null, and an operation that may throw. */
module Wrappers {

  /** A nullable Java reference: `None` is `null`. */
  datatype Option<+T> = None | Some(value: T)

  /** The outcome of a Java call: a value, or the exception it throws. */
  datatype Result<+T, +E> = Ok(value: T) | Err(error: E)

  /** The outcome of a Java call returning `void`. */
  datatype Outcome<+E> = Pass | Fail(error: E)
}

/** The Option and Result datatypes shared by the modules of this project. */
module Wrappers {

  /** A value that may be absent: JavaScript's `null`/`undefined`, Python's `None`. */
  datatype Option<+T> = None | Some(value: T)

  /** The outcome of an operation that either yields a value or reports an error message. */
  datatype Result<+T, +E> = Ok(value: T) | Err(error: E)
}

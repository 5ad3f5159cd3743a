/** Option and Result: the values a C pointer that may be NULL, or an R call that may fail, stand for. */
module Wrappers {

  /** A value that may be absent (a `const char *` that may be NULL). */
  datatype Option<+T> = None | Some(value: T)

  /** The outcome of an entry point that either succeeds or raises an R error with a message. */
  datatype Result<+T> = Ok(value: T) | Err(message: string)
}

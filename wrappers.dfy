/** Option and Result values for the driver's optional fields and fallible calls. */
module Wrappers {

  /** A value that may be absent; `None` also stands for a Go nil slice or a nil error. */
  datatype Option<+T> = None | Some(value: T)

  /** A value or the error that prevented computing it. */
  datatype Result<+T, +E> = Ok(value: T) | Fail(error: E)
}

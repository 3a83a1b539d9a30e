/** Optional values and the exceptions the time-series routines raise. */
module Wrappers {

  /** A value that may be missing; `None` stands for Python's `None`. */
  datatype Option<+T> = None | Some(value: T)

  /** The Python exceptions a call can end in. */
  datatype PyError = ValueError | NameError

  /** Either the value a call returns or the exception it raises. */
  datatype Result<+T> = Ok(value: T) | Err(error: PyError)
}

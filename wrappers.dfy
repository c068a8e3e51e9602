/** Option and Result, the failure-carrying values used throughout the model. */
module Wrappers {

  datatype Option<+T> = None | Some(value: T)

  /** A returned value, or the process exit code the source ends with instead. */
  datatype Result<+T> = Ok(value: T) | Exit(code: int)
}

/** Option and Result, the two failure-carrying datatypes the model uses. */
module Wrappers {

  /** `None` stands for a missing value (a failed read, an unparseable date). */
  datatype Option<+T> = None | Some(value: T)

  /** `Err` stands for an exception that aborts the run. */
  datatype Result<+T, +E> = Ok(value: T) | Err(error: E)
}

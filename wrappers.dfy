/** Option and Result, the failure-carrying values used throughout the model. */
module Wrappers {

  datatype Option<+T> = None | Some(value: T)

  datatype Result<+T, +E> = Ok(value: T) | Err(error: E)

  /** Python's `x or ""` on a value that is either a string or None. */
  function OrEmpty(x: Option<string>): string {
    match x
    case Some(s) => s
    case None => ""
  }
}

/** Failure-carrying values used by every module. */
module Wrappers {

  type Positive = n: nat | 0 < n witness 1

  datatype Option<+T> = None | Some(value: T)

  datatype Result<+T, +E> = Ok(value: T) | Err(error: E)
}

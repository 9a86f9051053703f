/** Failure-free optional values shared by every module. */
module Basics {
  datatype Option<+T> = None | Some(value: T)

  /** Values a store or a check can hand back, with the source's error cases. */
  datatype Result<+T, +E> = Ok(value: T) | Err(error: E)
}

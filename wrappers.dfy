/** Option and Result, the shapes every stage of the pipeline returns instead of raising. */
module Wrappers {
  datatype Option<+T> = None | Some(value: T)

  /** `Err` stands for a raised exception, `Ok` for a returned value. */
  datatype Result<+T, +E> = Ok(value: T) | Err(error: E)
}

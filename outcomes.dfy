/** Option and Result, used wherever the source returns "nothing" or throws. */
module Outcomes {

  datatype Option<+T> = None | Some(value: T)

  /** `Err` stands for a JavaScript exception thrown (or a rejected promise). */
  datatype Result<+T, +E> = Ok(value: T) | Err(error: E)
}

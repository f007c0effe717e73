/** Option and Result, used for JavaScript's `undefined` and for the errors zod throws. */
module Wrappers {

  /** `None` models a JavaScript `undefined`. */
  datatype Option<+T> = None | Some(value: T)

  /** `Err` models a thrown validation error. */
  datatype Result<+T, +E> = Ok(value: T) | Err(error: E)
}

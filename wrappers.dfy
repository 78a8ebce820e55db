/** Optional values and the outcome of a JavaScript call that may throw. */
module Wrappers {

  datatype Option<+T> = None | Some(value: T)

  /** What a JavaScript function call ends with: a returned value or a thrown error. */
  datatype Result<+T, +E> = Ok(value: T) | Threw(error: E)
}

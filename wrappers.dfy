/** Option and Result, used for the JavaScript values that may be `undefined`
    and for the operations that may throw. */
module Wrappers {

  datatype Option<+T> = None | Some(value: T)

  datatype Result<+R, +E> = Ok(value: R) | Err(error: E)
}

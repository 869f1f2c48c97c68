/** Option and Result values standing for JavaScript's `null`/`undefined`
    and for thrown errors or rejected promises. */
module Wrappers {

  datatype Option<+T> = None | Some(value: T)

  datatype Result<+R, +E> = Ok(value: R) | Err(error: E)
}

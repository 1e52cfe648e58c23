/** Option and Result values used wherever the source returns `null`/`undefined`
    or throws instead of returning. */
module Wrappers {

  datatype Option<+T> = None | Some(value: T)

  datatype Result<+T, +E> = Success(value: T) | Failure(error: E)
}

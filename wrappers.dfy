/** Option and Result, used for the nullable attributes of a credential and
    for the exceptions its operations raise. */
module Wrappers {

  datatype Option<+T> = None | Some(value: T)

  datatype Result<+R, +E> = Success(value: R) | Failure(error: E)
}

/** Option and Result, for the script's "not yet seen" value and its fatal start-up errors. */
module Wrappers {

  datatype Option<+T> = None | Some(value: T)

  datatype Result<+R, +E> = Success(value: R) | Failure(error: E)
}

/** Option and Result, standing for Java's nullable references and for
    calls that either return normally or throw. */
module Wrappers {

  datatype Option<+T> = None | Some(value: T)

  datatype Result<+R, +E> = Success(value: R) | Failure(error: E)
}

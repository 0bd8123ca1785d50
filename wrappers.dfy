/** Option and Result, the two failure-compatible shapes the model uses for
    Java's nullable lookups (`Optional`) and for thrown exceptions. */
module Wrappers {

  datatype Option<+T> = None | Some(value: T)

  datatype Result<+T, +E> = Success(value: T) | Failure(error: E)
}

/** Option and Result: the model's stand-ins for PHP's null and for thrown exceptions. */
module Wrappers {

  datatype Option<+T> = None | Some(value: T)

  /** `Success` is a normal return, `Failure` an exception that unwinds to the nearest catch. */
  datatype Result<+R, +E> = Success(value: R) | Failure(error: E)
}

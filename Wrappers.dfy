/** Option and pass/fail outcome types shared by the model's modules. */
module Wrappers {

  datatype Option<+T> = None | Some(value: T)

  /** The outcome of an operation that either completes or throws. */
  datatype Outcome<+E> = Pass | Fail(error: E)

  /** A value, or the exception that prevented it. */
  datatype Result<+R, +E> = Success(value: R) | Failure(error: E)
}

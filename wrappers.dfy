/** Option and Outcome types used for the nullable foreign keys of a songplay
    and for the errors that abort the processing of a file. */
module Wrappers {

  datatype Option<+T> = None | Some(value: T)

  /** The result of a step that either completes or raises. */
  datatype Outcome<+E> = Pass | Fail(error: E)

  datatype Result<+R, +E> = Success(value: R) | Failure(error: E)
}

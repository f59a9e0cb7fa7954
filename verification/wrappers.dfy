/** Option, Result and Outcome wrappers used across the model. */
module Wrappers {

  /** An optional value; `None` also stands for a NaN score. */
  datatype Option<+T> = None | Some(value: T)

  /** The value of a computation, or the error it raised. */
  datatype Result<+R, +E> = Success(value: R) | Failure(error: E)

  /** Completion of a call that returns nothing, or the error it raised. */
  datatype Outcome<+E> = Pass | Fail(error: E)
}

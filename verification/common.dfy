/** Option and Result wrappers shared by the other modules. */
module Common {

  /** A value that Python represents as `None` or as a present value. */
  datatype Option<+T> = None | Some(value: T)

  /** The outcome of a step that may raise; `Failure` carries what went wrong. */
  datatype Result<+R, +E> = Success(value: R) | Failure(error: E)
}

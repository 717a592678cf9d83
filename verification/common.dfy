/** Failure-carrying wrappers shared by every module of the model. */
module Common {

  /** A value that may be absent: a NULL column, a missing key, a blank optional input. */
  datatype Option<+T> = None | Some(value: T)

  /** The outcome of an operation that may fail with an error of type E. */
  datatype Result<+T, +E> = Ok(value: T) | Err(error: E)
}

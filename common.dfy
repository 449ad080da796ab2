/** Failure-carrying values shared by every module of the model. */
module Common {

  /** A value that may be absent: Python's `None` on one side. */
  datatype Option<T> = None | Some(value: T)

  /** The outcome of an operation that raises: `Err` carries the exception. */
  datatype Result<T, E> = Ok(value: T) | Err(error: E)
}

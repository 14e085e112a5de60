/** Failure-carrying datatypes shared by the model: Python's exceptions become
    the error side of these values. */
module Results {

  datatype Option<+T> = None | Some(value: T)

  datatype Result<+T, +E> = Ok(value: T) | Err(error: E)

  /** The outcome of an operation that returns nothing useful or raises. */
  datatype Outcome<+E> = Pass | Fail(error: E)
}

/** Small failure-carrying datatypes shared by the modules of the model. */
module Results {

  datatype Option<T> = None | Some(value: T)

  /** The outcome of an operation that the program can refuse with an exception. */
  datatype Result<T, E> = Ok(value: T) | Err(error: E)
}

/** Option and Result types used for the Python exceptions the model keeps. */
module Results {

  datatype Option<+T> = None | Some(value: T)

  /** `Err` stands for an exception that propagates out of the modelled code. */
  datatype Result<+T, +E> = Ok(value: T) | Err(error: E)
}

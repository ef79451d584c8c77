/** Outcome datatypes shared by the models of the harness and of the demo builder. */
module Results {
  datatype Option<+T> = None | Some(value: T)

  /** A value, or the error the program raises. */
  datatype Result<+T, +E> = Ok(value: T) | Err(error: E)
}

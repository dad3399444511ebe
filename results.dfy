/** Option and Result values for the model's error paths. */
module Results {

  datatype Option<+T> = None | Some(value: T)

  /** `Err` stands for a Python exception raised (and not caught) by the code being modelled. */
  datatype Result<+T, +E> = Ok(value: T) | Err(error: E)
}

/** Success/failure values for the operations whose Python counterpart can
    raise or produce "no value" (NaN). */
module Results {

  /** A value that may be absent, e.g. the mean of an empty batch. */
  datatype Option<+T> = None | Some(value: T)

  /** Either a computed value or the error the Python code would raise. */
  datatype Result<+T, +E> = Ok(value: T) | Err(error: E)
}

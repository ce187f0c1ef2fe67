/** The outcome of a host routine that may raise. */
module Results {
  datatype Result<+T> = Ok(value: T) | Raised
  datatype Option<+T> = None | Some(value: T)
}

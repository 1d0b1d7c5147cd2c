/** The two result types used throughout: a value that may be absent, and a value that may be handed back. */
module Options {
  datatype Option<+T> = None | Some(value: T)

  datatype Result<+T, +E> = Ok(value: T) | Err(error: E)
}

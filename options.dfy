/** Stand-ins for a null reference and for a thrown exception. */
module Options {

  /** `None` where the source returns `null` (or `default`). */
  datatype Option<+T> = None | Some(value: T)

  /** `Err` where the source throws; the error carries what the exception says. */
  datatype Result<+T, +E> = Ok(value: T) | Err(error: E)
}

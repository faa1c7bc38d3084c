/** Option and Result values used where the modelled code returns "nothing" or raises. */
module Results {

  /** A value that may be absent, as `os.getenv` returns `None` for an unset variable. */
  datatype Option<+T> = None | Some(value: T)

  /** Either a computed value or the error that stops the computation. */
  datatype Result<+T, +E> = Success(value: T) | Failure(error: E)
}

/** The success-or-error value used wherever the source raises an
    exception or returns an error response. */
module Results {

  datatype Result<+T, +E> = Ok(value: T) | Err(error: E)
}

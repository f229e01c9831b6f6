/** Success/failure values used by the compose manager and the service model. */
module Results {

  /** An optional value: `None` where the Go code returns a nil error or nil handle. */
  datatype Option<+T> = None | Some(value: T)

  /** A value or an error, for Go's `(value, error)` return pairs. */
  datatype Result<+T, +E> = Ok(value: T) | Err(error: E)
}

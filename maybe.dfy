/** Optional values: Python's `X | None`. */
module Maybe {

  datatype Option<+T> = None | Some(value: T)

  /** Errors the modelled code raises instead of returning. */
  datatype Result<+T, +E> = Ok(value: T) | Err(error: E)
}

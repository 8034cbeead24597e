/** Optional values and success-or-error results, standing in for Go's
    nil pointers and (value, error) return pairs. */
module Results {

  datatype Option<+T> = None | Some(value: T)

  datatype Result<+T, +E> = Ok(value: T) | Err(error: E)
}

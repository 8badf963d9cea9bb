/** Optional values and success-or-failure values, used for the promises the service returns. */
module Results {

  datatype Option<+T> = None | Some(value: T)

  /** A settled promise: fulfilled with a value, or rejected with an error. */
  datatype Result<+T, +E> = Success(value: T) | Failure(error: E)
}

/** Optional values and results with an error, the shapes Go expresses as
    `(T, bool)` and `(T, error)` return pairs. */
module Results {

  datatype Option<+T> = None | Some(value: T) {

    /** The value, or the given default when there is none. */
    function GetOr(default: T): T {
      match this
      case Some(v) => v
      case None => default
    }
  }

  datatype Result<+T, +E> = Ok(value: T) | Err(error: E)
}

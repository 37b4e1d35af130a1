/** Optional values and handler outcomes shared by every module. */
module Options {

  /** A value that may be absent (Python's `None`, or a key missing from a document). */
  datatype Option<+T> = None | Some(value: T) {

    /** The contained value, or `default` when absent (`dict.get(key, default)`). */
    function GetOr(default: T): T {
      match this
      case Some(v) => v
      case None => default
    }
  }

  /** Either a value or an error. */
  datatype Result<+T, +E> = Ok(value: T) | Err(error: E)
}

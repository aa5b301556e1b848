/** Optional values and error-or-value results, used where the source returns
    `None` or raises. */
module Options {

  datatype Option<+T> = None | Some(value: T) {
    /** `dict.get(key, default)` style fallback. */
    function GetOr(default: T): T {
      match this
      case Some(v) => v
      case None => default
    }
  }

  datatype Result<+T, +E> = Success(value: T) | Failure(error: E)
}

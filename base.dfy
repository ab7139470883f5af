/** Optional values and failing results shared by the other modules. */
module Base {

  /** `None` stands for Python's `None` (or a missing key / SQL NULL). */
  datatype Option<+T> = None | Some(value: T) {
    function GetOr(default: T): T {
      match this
      case Some(v) => v
      case None => default
    }
  }

  /** An operation that the source lets raise: `Err` means the exception escaped. */
  datatype Result<+T> = Ok(value: T) | Err
}

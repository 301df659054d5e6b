/** Small shared vocabulary: optional values (Go's nil pointers) and
    results (Go's `(value, error)` pairs). */
module Base {

  /** A Go pointer or an optional value: `None` stands for `nil`. */
  datatype Option<+T> = None | Some(value: T) {
    function GetOr(default: T): T
    {
      match this
      case Some(v) => v
      case None => default
    }
  }

  /** A Go `(value, error)` pair where exactly one side is meaningful. */
  datatype Result<+T, +E> = Ok(value: T) | Err(error: E)
}

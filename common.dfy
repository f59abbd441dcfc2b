/** Small shared vocabulary: Python's `None`-or-value and opaque timestamps. */
module Common {

  /** A value that Python code may leave as `None`. */
  datatype Option<+T> = None | Some(value: T) {
    function GetOr(default: T): T {
      match this
      case Some(v) => v
      case None => default
    }
  }

  /** Wall-clock instants (`datetime.utcnow()`, `time.time()`) are opaque here:
      the model only stores and compares them. */
  type Timestamp = int
}

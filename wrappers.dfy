/** Option and Result values for the places where the system returns None,
    raises, or reports a structured failure. */
module Wrappers {

  datatype Option<+T> = None | Some(value: T) {
    function GetOr(default: T): T {
      match this
      case Some(v) => v
      case None => default
    }
  }

  datatype Result<+T, +E> = Success(value: T) | Failure(error: E)

  /** An optional text argument that is present and non-empty: Python's truthiness of
      `args.get(key)` for a string. */
  predicate Given(s: Option<string>) {
    s.Some? && s.value != ""
  }
}

/** Small value wrappers shared by every module of the model. */
module Wrappers {

  /** A value that may be absent (`undefined`, or `null` where the services treat it alike). */
  datatype Option<+T> = None | Some(value: T) {
    function GetOr(default: T): T {
      match this
      case Some(v) => v
      case None => default
    }
  }

  /** The outcome of an operation that either yields a value or fails with an error. */
  datatype Result<+T, +E> = Success(value: T) | Failure(error: E)

  /**
   * JavaScript truthiness of an optional string: `undefined`, `null` and the
   * empty string are all falsy, every other string is truthy.
   */
  predicate Truthy(s: Option<string>) {
    s.Some? && s.value != ""
  }

  function Min(a: int, b: int): int {
    if a <= b then a else b
  }
}

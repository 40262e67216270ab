/** Optional values, error results and JavaScript truthiness, shared by every
    other module of the model. */
module Wrappers {

  /** A value that may be absent: `undefined` / `null` in the source. */
  datatype Option<+T> = None | Some(value: T) {
    function GetOr(default: T): T {
      match this
      case Some(v) => v
      case None => default
    }
  }

  /** The outcome of a request handler that either answers or throws. */
  datatype Result<+R> = Ok(value: R) | Failure(message: string)

  /** JavaScript truthiness of an optional string: `null`, `undefined` and the
      empty string are all falsy. */
  predicate Truthy(s: Option<string>) {
    s.Some? && s.value != ""
  }

  /** `Math.max` of two integers. */
  function Max(a: int, b: int): (m: int)
    ensures m >= a && m >= b
    ensures m == a || m == b
  {
    if a >= b then a else b
  }
}

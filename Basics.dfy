/** Small shared vocabulary: optional values and HTTP-style outcomes. */
module Basics {

  /** A value that may be absent (JavaScript `undefined`/`null`). */
  datatype Option<+T> = None | Some(value: T) {
    function GetOr(default: T): T {
      match this
      case Some(v) => v
      case None => default
    }
  }

  /** The outcome of an operation that can be rejected. */
  datatype Result<+T, +E> = Ok(value: T) | Err(error: E)

  /** The smaller of two integers. */
  function Min(a: int, b: int): (r: int)
    ensures r <= a && r <= b
    ensures r == a || r == b
  {
    if a <= b then a else b
  }

  /** The larger of two integers (`Math.max`). */
  function Max(a: int, b: int): (r: int)
    ensures r >= a && r >= b
    ensures r == a || r == b
  {
    if a >= b then a else b
  }
}

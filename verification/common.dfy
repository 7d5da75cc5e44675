/** Shared value types: optional values, results of operations that may raise, and bytes. */
module Common {

  /** A value that may be absent (a missing dictionary key, an unset global). */
  datatype Option<+T> = None | Some(value: T)

  /** The outcome of an operation that returns a value or raises an exception. */
  datatype Result<+T, +E> = Ok(value: T) | Err(error: E)

  /** An 8-bit byte, as read from a pipe or an HTTP body. */
  type byte = b: int | 0 <= b < 256

  function Min(a: int, b: int): int { if a <= b then a else b }
}

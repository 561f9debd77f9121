/** Value wrappers shared by every module: Go's "value or nil", "value or error" and uint8. */
module Common {

  /** A value that may be absent (a nil pointer, a missing map entry, an undecodable body). */
  datatype Option<+T> = None | Some(value: T)

  /** Go's `(value, error)` pair when exactly one of the two is meaningful. */
  datatype Result<+T, +E> = Success(value: T) | Failure(error: E)

  /** Go's `uint8` (and `byte`). */
  type uint8 = x: int | 0 <= x < 256
}

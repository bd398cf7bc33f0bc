/** Option and Result values, and the Field wrapper for columns an insert may omit. */
module Wrappers {

  /** A value that may be absent: TypeScript's `T | null` (or `T | undefined`). */
  datatype Option<+T> = None | Some(value: T) {
    function GetOr(default: T): T {
      match this
      case Some(v) => v
      case None => default
    }
  }

  /** The outcome of an operation that may throw. */
  datatype Result<+T, +E> = Ok(value: T) | Err(error: E)

  /** A property of an insert payload that the caller may leave out (`key?: T`). */
  datatype Field<+T> = Omitted | Given(value: T) {
    function OrDefault(default: T): T {
      match this
      case Given(v) => v
      case Omitted => default
    }
  }
}

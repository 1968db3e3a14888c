/** Stock value wrappers: `null`-able values and thrown-or-returned results. */
module Wrappers {

  /** A value that may be absent (`T | null` in the source). */
  datatype Option<+T> = None | Some(value: T)

  /** A returned value or the message of a thrown `Error`. */
  datatype Result<+T, +E> = Ok(value: T) | Err(error: E)
}

/** Absent values, failing calls and failing writes. */
module Wrappers {
  datatype Option<+T> = None | Some(value: T)

  datatype Result<+T, +E> = Ok(value: T) | Err(error: E)

  /** How a write may end: `Torn` left the data in place but reported an error. */
  datatype Write = Written | Torn | NotWritten
}

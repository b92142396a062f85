/** Failure-carrying values for the places where the script can raise. */
module Wrappers {

  /** A value that may be absent (a dictionary key that is not there). */
  datatype Option<+T> = None | Some(value: T)

  /** A value, or the text of the exception raised instead of producing it. */
  datatype Result<+T> = Ok(value: T) | Err(error: string)
}

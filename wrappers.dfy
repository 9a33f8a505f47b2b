/** Failure-carrying values: an absent value (Python's None) and the outcome
    of an operation that may raise (Ok with its value, or Err with the text
    that `str(e)` gives for the exception). */
module Wrappers {

  datatype Option<+T> = None | Some(value: T)

  datatype Result<+T, +E> = Ok(value: T) | Err(error: E)
}

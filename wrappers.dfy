/** Failure-carrying return values: the JavaScript resolvers either return a
    value, return `null`, or throw an `Error`; these datatypes make each of
    those outcomes explicit. */
module Wrappers {

  /** A value that may be absent (`null` / `undefined` in the source). */
  datatype Option<+T> = None | Some(value: T)

  /** Either a value or the error the source would have thrown. */
  datatype Result<+R, +E> = Ok(value: R) | Err(error: E)

  /** A check that returns nothing on success and throws on failure. */
  datatype Outcome<+E> = Pass | Fail(error: E)
}

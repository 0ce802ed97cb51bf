/** Option and Result types standing for Java's null and for a thrown exception. */
module Wrappers {

  /** `None` models a Java `null` argument. */
  datatype Option<+T> = None | Some(value: T)

  /** The one error kind of the tag collection: an `IllegalArgumentException`. */
  datatype Error = IllegalArgument

  /** Either a value or the exception the Java call would throw. */
  datatype Result<+T> = Ok(value: T) | Err(error: Error)
}

/** Option and Result: the model's stand-ins for Java's null references and thrown exceptions. */
module Wrappers {

  /** `None` plays the part of a Java `null`. */
  datatype Option<+T> = None | Some(value: T)

  /** `Err` plays the part of an exception that escapes the modelled method. */
  datatype Result<+T, +E> = Ok(value: T) | Err(error: E)
}

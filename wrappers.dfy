/** Java's nullable references and thrown exceptions, as values. */
module Wrappers {

  /** A Java reference that may be null. */
  datatype Option<+T> = None | Some(value: T)

  /** The normal return of a Java method, or the exception it raised. */
  datatype Result<+R, +E> = Ok(value: R) | Err(error: E)
}

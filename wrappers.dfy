/** Option, Result and Outcome: a Java `null`, a returned value or a thrown exception. */
module Wrappers {

  /** A Java reference that may be `null`, or an `Optional`. */
  datatype Option<+T> = None | Some(value: T)

  /** A call that returns a value or throws. */
  datatype Result<+R, +E> = Success(value: R) | Failure(error: E)

  /** A `void` call that returns normally or throws. */
  datatype Outcome<+E> = Pass | Fail(error: E)
}

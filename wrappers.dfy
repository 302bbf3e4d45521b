/** Option and Result: Java's nullable references and thrown exceptions, as values. */
module Wrappers {

  /** A nullable Java reference: None stands for `null`. */
  datatype Option<+T> = None | Some(value: T)

  /** A Java call that either returns normally or throws. */
  datatype Result<+R, +E> = Success(value: R) | Failure(error: E)

  /** A Java `void` call that either returns normally or throws. */
  datatype Outcome<+E> = Pass | Fail(error: E)
}

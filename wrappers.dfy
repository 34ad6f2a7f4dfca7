/** Option, Result and Outcome: the model's lookups that may find nothing and the exceptions the source throws. */
module Wrappers {

  /** A value that may be absent: a Java reference that may be null, a lookup that may miss. */
  datatype Option<+T> = None | Some(value: T)

  /** A computation that either produces a value or throws. */
  datatype Result<+T, +E> = Ok(value: T) | Err(error: E)

  /** A check that either passes or throws; it produces no value. */
  datatype Outcome<+E> = Pass | Fail(error: E)
}

/** Failure-carrying values shared by every module of the model. */
module Wrappers {

  datatype Option<+T> = None | Some(value: T)

  /** A call that either returns normally or throws; `Thrown` carries the error. */
  datatype Outcome<+E> = Done | Thrown(error: E)

  /** A call that returns a value or throws. */
  datatype Result<+T, +E> = Ok(value: T) | Err(error: E)
}

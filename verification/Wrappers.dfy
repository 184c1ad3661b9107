/** Failure-carrying values shared by the other modules. */
module Wrappers {

  datatype Option<+T> = None | Some(value: T)

  /** The value of a call that can return an error to its caller. */
  datatype Result<+T> = Ok(value: T) | Err

  /** The value of a call that can abort the block by panicking. */
  datatype Fallible<+T> = Done(value: T) | Panicked
}

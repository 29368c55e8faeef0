/** Failure-carrying values: Python's `None`, return-or-raise, and
    raise-or-return-nothing, written as datatypes. */
module Wrappers {

  datatype Option<+T> = None | Some(value: T)

  /** A call that either returns `value` or raises `error`. */
  datatype Result<+T, +E> = Ok(value: T) | Err(error: E)

  /** A call that returns nothing or raises `error`. */
  datatype Outcome<+E> = Pass | Fail(error: E)
}

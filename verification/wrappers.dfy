/** The Option and Result datatypes used across the ticket-service model. */
module Wrappers {

  /** A value that may be absent: an account id that did not parse, a request list that did not validate. */
  datatype Option<+T> = None | Some(value: T)

  /** The outcome of a call that either returns a value or raises an error. */
  datatype Result<+R, +E> = Success(value: R) | Failure(error: E)
}

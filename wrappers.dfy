/** Failure-carrying results shared by the other modules. */
module Wrappers {

  datatype Option<+T> = None | Some(value: T)

  /** The outcome of an operation that either completes or raises a runtime error carrying a message. */
  datatype Outcome = Pass | Fail(error: string)
}

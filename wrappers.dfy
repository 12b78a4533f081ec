/** Option and Result values, and the outcome of a step that may throw. */
module Wrappers {

  datatype Option<+T> = None | Some(value: T)

  datatype Result<+T, +E> = Success(value: T) | Failure(error: E)

  /** The outcome of a collaborator call that either returns a value or throws
      an exception carrying a message. */
  datatype Attempt<+T> = Done(value: T) | Threw(message: string)
}

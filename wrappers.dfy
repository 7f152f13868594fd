/** Optional values and pass/fail outcomes, used where the source passes a nullable
    pointer or raises a validation error. */
module Wrappers {

  datatype Option<+T> = None | Some(value: T)

  /** The outcome of an operation that can fail a validation: `Fail` carries the
      message the source raises. */
  datatype Outcome = Pass | Fail(message: string)
}

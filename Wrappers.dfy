/** Optional values and pass/fail outcomes shared by the other modules. */
module Wrappers {

  datatype Option<+T> = None | Some(value: T)

  /** The outcome of an operation that returns nothing but may fail with an error. */
  datatype Outcome<+E> = Pass | Fail(error: E)
}

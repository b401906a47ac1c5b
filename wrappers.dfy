/** Option and Outcome, the two wrappers the model uses for PHP's null and for thrown errors. */
module Wrappers {

  /** `None` stands for PHP's `null`. */
  datatype Option<+T> = None | Some(value: T)

  /** The result of an operation that either completes or throws. */
  datatype Outcome<+E> = Pass | Fail(error: E)
}

/** Helper datatypes shared by the model. */
module Wrappers {

  /** A value that may be absent; `None` stands for PHP's NULL or an unset key. */
  datatype Option<+T> = None | Some(value: T)

  /** The outcome of an operation that returns nothing or throws. */
  datatype Outcome<+E> = Pass | Fail(error: E)
}

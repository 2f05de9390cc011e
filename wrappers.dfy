/** Failure-carrying result types shared by the model: `Option` stands for a
    nullable reference, `Result` for an operation that can throw. */
module Wrappers {

  datatype Option<+T> = None | Some(value: T)

  datatype Result<+T, +E> = Ok(value: T) | Err(error: E)

  /** The outcome of a state-changing operation that returns nothing but may throw. */
  datatype Outcome<+E> = Pass | Fail(error: E)
}

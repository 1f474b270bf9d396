// Small failure-carrying datatypes shared by every module of the model.
module Wrappers {

  /** A value that may be missing (Rust's `Option`). */
  datatype Option<+T> = None | Some(value: T) {
    predicate IsFailure() { None? }

    function PropagateFailure<U>(): Option<U>
      requires None?
    {
      None
    }

    function Extract(): T
      requires Some?
    {
      value
    }
  }

  /** A computation that produced a value or an error (Rust's `Result`). */
  datatype Result<+T, +E> = Success(value: T) | Failure(error: E) {
    predicate IsFailure() { Failure? }

    function PropagateFailure<U>(): Result<U, E>
      requires Failure?
    {
      Failure(error)
    }

    function Extract(): T
      requires Success?
    {
      value
    }
  }

  /** A check that passed or failed with an error (Rust's `Result<(), E>`). */
  datatype Outcome<+E> = Pass | Fail(error: E)
}

// The error values the modelled code returns (the crate's `RedisError`, reduced to what
// the modelled code writes into it).
module Errors {
  import opened Wrappers

  datatype ErrorKind = AuthenticationFailed | InvalidClientConfig | IoError

  /** An error kind, its fixed description and an optional detail message. */
  datatype RedisError = RedisError(kind: ErrorKind, description: string, detail: Option<string>)
}

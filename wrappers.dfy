/** Failure-compatible wrappers shared by every module of the model. */
module Wrappers {

  datatype Option<+T> = None | Some(value: T) {
    predicate IsFailure() { None? }
    function PropagateFailure<U>(): Option<U> requires None? { None }
    function Extract(): T requires Some? { value }
    function GetOr(default: T): T { if Some? then value else default }
  }

  /** The Python exception classes the core raises. */
  datatype Error =
    | ValueError
    | AssertionError
    | TypeError
    | IndexError
    | KeyError
    | AttributeError
    | NotImplementedError
    | ModelNotFoundError

  /** The outcome of a call that may raise. */
  datatype Result<+T> = Ok(value: T) | Err(error: Error) {
    predicate IsFailure() { Err? }
    function PropagateFailure<U>(): Result<U> requires Err? { Err(error) }
    function Extract(): T requires Ok? { value }
  }
}

/** Option and Result values, and the Python exceptions the core raises. */
module Wrappers {
  datatype Option<T> = None | Some(value: T)

  /** The exception classes raised on the paths this model covers. */
  datatype Error =
    | ValueError
    | IndexError
    | KeyError
    | TypeError
    | AttributeError
    | ImportError
    | AssertionError
    | IntegrityError
    | RuntimeError
    | ValidationError
    | UnboundLocalError

  /** The outcome of a call that either returns a value or raises. */
  datatype Result<T> = Ok(value: T) | Err(error: Error)
}

/** Option and Result, the failure-carrying datatypes used throughout the model. */
module Wrappers {

  datatype Option<+T> = None | Some(value: T) {
    function GetOr(default: T): T {
      match this
      case Some(v) => v
      case None => default
    }
  }

  /** A Python call that may raise: Ok carries the value, Err the exception's kind and message. */
  datatype Result<+T> = Ok(value: T) | Err(error: Error)

  /** The Python exception classes the modelled code raises or catches. */
  datatype ErrorKind =
    | ValueError
    | RuntimeError
    | TypeError
    | AttributeError
    | KeyError
    | IndexError
    | StopIteration
    | ZeroDivisionError
    | TimeoutError
    | KeyboardInterrupt
    | AgentException

  datatype Error = Error(kind: ErrorKind, message: string)
}

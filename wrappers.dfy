/** Option and Result, plus the model of a raised Python exception. */
module Wrappers {

  datatype Option<+T> = None | Some(value: T) {
    function GetOr(default: T): T {
      match this
      case Some(v) => v
      case None => default
    }
  }

  /** A computation that either returns a value or raises. Compatible with `:-`. */
  datatype Result<+R, +E> = Ok(value: R) | Err(error: E) {
    predicate IsFailure() {
      Err?
    }

    function PropagateFailure<U>(): Result<U, E>
      requires Err?
    {
      Err(error)
    }

    function Extract(): R
      requires Ok?
    {
      value
    }
  }

  /** The Python exception classes the modelled code distinguishes. */
  datatype ErrorKind =
    | ValueError      // what the tool registry raises for an unknown tool
    | TypeError       // an operator applied to a value of the wrong type
    | AttributeError  // a method called on a value that does not have it
    | RuntimeError    // raised explicitly by the handshake and the knowledge agent
    | TransportError  // connection failure, timeout, bad HTTP status or unparsable reply
    | OtherError      // anything else raised by a collaborator that is not modelled

  /** A raised exception; `message` is what `str(e)` gives. */
  datatype PyError = PyError(kind: ErrorKind, message: string)
}

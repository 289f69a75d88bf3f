/** Failure-carrying values shared by every module of the model, and the
    Python exception classes that the modelled code raises or catches. */
module Wrappers {

  datatype Option<+T> = None | Some(value: T)

  datatype Result<+T, +E> = Ok(value: T) | Err(error: E)

  /** The exception classes the modelled code raises, propagates or catches.
      The exception objects' messages are not part of the model; where the
      code builds a message from its inputs, the constructor carries it. */
  datatype Exception =
    | ValueError(message: string)
    | JsonDecodeError
    | KeyError(key: string)
    | IndexError
    | TypeError
    | AttributeError          // an attribute the object lacks (a method called on None)
    | FileNotFoundError(path: string)
    | ZeroDivisionError
    | ClientError(code: string)
    | ServiceError            // any other failure of a remote call
}

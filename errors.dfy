/** Failure-compatible result types and the errors the device reader raises. */
module Errors {

  datatype Option<+T> = None | Some(value: T)

  /** The exceptions of the device reader, one constructor per raise site. */
  datatype Error =
    | UnsupportedConnectionType(connectionType: string)  // ValueError from client creation
    | InvalidEndianOrder(order: string)                   // ValueError from endian parsing
    | UnsupportedDataType(dataType: string)               // ValueError from the type dispatch
    | ReadFailed(address: int)                            // the device answered with an error
    | ShortPayload(received: nat, needed: nat)            // the decoder ran out of words
  {
    /** The Python ValueError family: configuration mistakes. */
    predicate IsValueError() {
      UnsupportedConnectionType? || InvalidEndianOrder? || UnsupportedDataType?
    }
  }

  datatype Result<+T> = Success(value: T) | Failure(error: Error) {
    predicate IsFailure() {
      Failure?
    }

    function PropagateFailure<U>(): Result<U>
      requires Failure?
    {
      Failure(error)
    }

    function Extract(): T
      requires Success?
    {
      value
    }
  }
}

/** Optional values, results and the error conditions the client signals. */
module Base {

  /** A Java reference that may be null. */
  datatype Option<+T> = None | Some(value: T)

  /** Which exception an operation ends with. Only the kind is modelled, not the message. */
  datatype Error =
    | ServerNotConnected      // ServerNotConnectedException
    | NoWaveOpen              // NoWaveOpenException
    | ParticipantManagement   // ParticipantManagementException
    | IndexOutOfBounds        // IndexOutOfBoundsException
    | Unsupported             // UnsupportedOperationException from the document cursor
    | NullPointer             // a dereference of null that the code does not guard

  /** A value returned normally, or the exception thrown instead. */
  datatype Result<+T> = Success(value: T) | Failure(error: Error)

  /** The outcome of an operation that returns void. */
  datatype Outcome = Pass | Fail(error: Error)
}

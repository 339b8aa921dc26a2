/** Option and Result, the two failure-carrying shapes the model threads through
    every operation in place of Java's null and its checked exceptions. */
module Wrappers {

  /** A value that may be absent; stands for a Java reference that may be null. */
  datatype Option<+T> = None | Some(value: T) {

    /** Returns the held value, or the given default when there is none. */
    function GetOr(default: T): T {
      match this
      case Some(v) => v
      case None => default
    }
  }
}

/** The exception classes of the client library, flattened into one closed variant.
    An AuthenticationException is a CommunicationException in the source; the
    predicate `IsCommunication` keeps that sub-typing visible. */
module Errors {

  datatype Error =
    | CommunicationError(message: string)
    | AuthenticationError(message: string)
    | EntityBuildingError(message: string)
    | AmbiguousIdentifier(term: string)
    /** `new CommunicationException(cause)`: a lower-level failure re-thrown. */
    | WrappedCommunication(cause: Error)
    /** `new EntityBuildingException(cause)`. */
    | WrappedEntityBuilding(cause: Error)
    /** `new AuthenticationException(cause)`. */
    | WrappedAuthentication(cause: Error)
    /** Causes that are not client exceptions themselves: an `IOException` from
        the transport, the file system or the JSON reader, and the external
        parser's and renderer's exceptions. */
    | IoError
    | ParsingError(message: string)
    | RenderingError(message: string)
    /** Unchecked Java exceptions the source lets escape. */
    | NullPointer(message: string)
    | IllegalArgument(message: string)
    /** The JSON reader's `IllegalStateException`: well-formed JSON of a shape
        the reader was not told to expect. */
    | IllegalState
    | ConcurrentModification
    | IndexOutOfBounds(begin: int, end: int)
  {
    /** True for everything a `catch (CommunicationException ex)` would catch. */
    predicate IsCommunication() {
      CommunicationError? || AuthenticationError? || WrappedCommunication? || WrappedAuthentication?
    }
  }

  datatype Result<+T> = Success(value: T) | Failure(error: Error) {

    predicate IsFailure() {
      Failure?
    }

    function PropagateFailure<U>(): Result<U>
      requires Failure?
    {
      Failure(error)
    }

    function Extract(): T
      requires Success?
    {
      value
    }
  }
}

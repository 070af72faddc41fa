/** The exceptions a request can end in. */
module Errors {
  import opened Values

  /** Which `assert` of the client or the method descriptor failed. */
  datatype Violation =
    | ArgCountMismatch(expected: int, passed: nat)
    | BothMiddlewareLists
    | CopyReturnedSameObject
    | InPlaceReturnedOtherObject
    | GetWithBody
    | FileWithoutFiles
    | BodyWithFiles
    | FilesWithoutFileVerb

  datatype Error =
    /** A failed `assert` (AssertionError). */
    | AssertionError(violation: Violation)
    /** `url_ % args` with a slot count different from the argument count (TypeError). */
    | TemplateTypeError
    /** The blocking client has no branch for this verb. */
    | NotImplementedError(verb: string)
    /** A transport failure wrapped by the asynchronous client. */
    | RequestException(cause: Cause)
    /** An exception raised inside the response hook, wrapped. */
    | ResponseProcessException(cause: Cause)
    /** A transport failure propagated unwrapped (blocking client). */
    | TransportError(cause: Cause)
    /** An exception raised by a middleware, propagated unwrapped. */
    | MiddlewareRaised(cause: Cause)
}

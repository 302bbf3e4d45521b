/** The exceptions the client's core can raise, as constructors of one datatype. */
module Failures {
  import opened Wrappers

  /** The message of the client-side time-range guard. */
  const TimeRangeMessage: string := "The startTime must be earlier than the endTime."

  /** The message of the client-side offset guard of symbol search. */
  const NegativeOffsetMessage: string := "offset argument cannot be less than 0"

  datatype Failure =
    /** `RefreshTokenException`: the error body could not be read as an error envelope
        (or, in the legacy client, the status was 400); carries the HTTP status. */
    | RefreshTokenException(status: int)
    /** `ArgumentException`: a client-side guard failed or the server answered 1002-1004. */
    | ArgumentException(message: Option<string>)
    /** `TimeRangeException`, the subclass of `ArgumentException` thrown by the time-range guard. */
    | TimeRangeException(reason: string)
    /** `StatusCodeException`: any other non-2xx answer; carries the HTTP status. */
    | StatusCodeException(statusCode: int)
    /** `NullPointerException`: a null reference was dereferenced. */
    | NullPointer
    /** `ArrayIndexOutOfBoundsException`: `values[0]` of an empty array was read. */
    | IndexOutOfBounds
    /** `JsonSyntaxException`: a token response that is not JSON, or, in the legacy client, an
        error line that is not a bare integer. */
    | JsonSyntax

  /** Whether a failure is caught by a `catch (ArgumentException e)` clause. */
  predicate IsArgumentException(f: Failure) {
    f.ArgumentException? || f.TimeRangeException?
  }
}

/** The server as the dispatcher sees it: a script of responses, consumed one per request. */
module Network {
  import opened Wrappers

  /** What decoding the first line of an error body as an `{code, message}` envelope gives:
      a syntax error, nothing at all (an empty body decodes to null), or an envelope. A missing
      `code` decodes as 0 and a missing `message` as null. */
  datatype ErrorBody = Malformed | Empty | Envelope(code: int, message: Option<string>)

  /** One HTTP exchange: a status, the first line of the body (null when the body is empty) and
      how that line decodes as an error envelope; or a connection that fails with an I/O error. */
  datatype Response =
    | Reply(status: int, firstLine: Option<string>, error: ErrorBody)
    | ConnectionFailure

  predicate IsSuccessStatus(status: int) {
    200 <= status <= 299
  }
}

/**
 * The one outbound HTTP GET each tool makes, reduced to what the tools do
 * with its answer.  Connection handling, timeouts and JSON parsing belong to
 * the HTTP client and are not modelled: a reply is given as an input.
 */
module Http {

  /**
   * What the server answered: the status code, the body as text, and the body
   * as already-decoded JSON (of whatever shape the caller expects).
   */
  datatype Reply<J> = Reply(status: int, text: string, json: J)

  /** `raise_for_status()` lets a reply through only when its status is 2xx. */
  predicate IsSuccess(status: int) {
    200 <= status < 300
  }

  /** Exceptions a tool lets escape to its caller. */
  datatype Failure =
    | StatusError(status: int)   // raised by `raise_for_status()`
    | ValidationError            // raised by a schema class refusing a value

  /** A tool either returns a value or raises. */
  datatype Outcome<+T> = Returned(value: T) | Raised(failure: Failure)
}

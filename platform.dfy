/**
 * The platform-shaped values that the fulfillment protocol passes around
 * without looking inside: transport requests and responses, the values
 * collaborators throw, and the one error the protocol itself constructs.
 */
module Platform {

  /** A value thrown by a collaborator (authority, transport, request or
      logger). The protocol never inspects it; it only passes it on. */
  datatype Fault = Fault(code: int)

  /** Either a value or the fault a collaborator threw instead. */
  datatype Result<+T> = Ok(value: T) | Err(fault: Fault)

  /** A transport-level request. `serial` identifies the `prepare` call that
      built it; `credential` is the credential generation an authority
      applied to it, if any. */
  datatype FetchRequest = FetchRequest(serial: nat, credential: Option<nat>)

  datatype Option<+T> = None | Some(value: T)

  /** A transport-level response; the protocol reads only its status. */
  datatype Response = Response(status: int) {
    /** The "ok status" of the Fetch Standard (section 2.2.3): 200 to 299. */
    predicate Ok() {
      200 <= status <= 299
    }
  }

  /** The error value of `RESTError(status, statusText, message)`. */
  datatype RestError = RestError(status: int, statusText: string, message: string)

  /** The only error the protocol constructs itself: the retry budget is used up. */
  function RetryLimitExceeded(): RestError
  {
    RestError(401, "Unauthorized", "Retry limit exceeded")
  }
}

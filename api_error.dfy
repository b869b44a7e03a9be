/**
 * `Twitter.API.Error.TwitterAPIError`: the decoding of a Twitter error code (and its
 * message) into the cases the client reacts to.
 */
module TwitterAPIError {
  import opened Wrappers

  const RateLimitExceededCode := 88
  const AccountIsTemporarilyLockedCode := 326

  datatype TwitterAPIError =
    | Custom(code: int, message: string)
    | RateLimitExceeded
    | AccountIsTemporarilyLocked(message: string)

  /** One entry of the `errors` list of an error response. */
  datatype ErrorItem = ErrorItem(code: int, message: string)
  datatype ErrorResponse = ErrorResponse(errors: seq<ErrorItem>)

  /** The code a decoded error stands for. */
  function CodeOf(e: TwitterAPIError): int
  {
    match e
    case Custom(code, _) => code
    case RateLimitExceeded => RateLimitExceededCode
    case AccountIsTemporarilyLocked(_) => AccountIsTemporarilyLockedCode
  }

  /** The message a decoded error carries; the rate-limit case carries none. */
  function MessageOf(e: TwitterAPIError): Option<string>
  {
    match e
    case Custom(_, message) => Some(message)
    case RateLimitExceeded => None
    case AccountIsTemporarilyLocked(message) => Some(message)
  }

  /** `init(code:message:)`, with the message defaulting to the empty string. */
  function FromCode(code: int, message: string := ""): (r: TwitterAPIError)
    ensures r.RateLimitExceeded? <==> code == 88
    ensures r.AccountIsTemporarilyLocked? <==> code == 326
    ensures r.Custom? <==> code != 88 && code != 326
    ensures CodeOf(r) == code
    ensures code != 88 ==> MessageOf(r) == Some(message)
  {
    if code == RateLimitExceededCode then RateLimitExceeded
    else if code == AccountIsTemporarilyLockedCode then AccountIsTemporarilyLocked(message)
    else Custom(code, message)
  }

  /** `init?(errorResponse:)`: nil for an empty error list, else the decoding of the first error only. */
  function FromErrorResponse(response: ErrorResponse): (r: Option<TwitterAPIError>)
    ensures r.None? <==> response.errors == []
    ensures r.Some? ==> CodeOf(r.value) == response.errors[0].code
    ensures r.Some? && response.errors[0].code != 88 ==> MessageOf(r.value) == Some(response.errors[0].message)
  {
    if response.errors == [] then None
    else Some(FromCode(response.errors[0].code, response.errors[0].message))
  }

  /** Decoding is determined by the code and message alone: a decoded error re-decodes to itself. */
  lemma FromCodeRoundTrip(e: TwitterAPIError)
    requires e.Custom? ==> e.code != 88 && e.code != 326
    ensures FromCode(CodeOf(e), MessageOf(e).GetOr("")) == e
  {
  }

  /** Errors after the first one never influence the decoding. */
  lemma FromErrorResponseFirstOnly(first: ErrorItem, rest: seq<ErrorItem>, other: seq<ErrorItem>)
    ensures FromErrorResponse(ErrorResponse([first] + rest)) == FromErrorResponse(ErrorResponse([first] + other))
  {
  }
}

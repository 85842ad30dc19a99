/** How an HTTP answer becomes an error, and which errors may be retried. */
module Errors {
  import opened Ascii
  import opened Wrappers

  /** An error body.  Only the fields the classification looks at are kept. */
  datatype Body =
    | NoBody
    | TextBody(text: string)
    | DictBody(code: Option<string>, message: Option<string>, error: Option<string>, hasResource: bool, hasLimit: bool, hasPlan: bool)

  /** The `Retry-After` header: absent, present but not understood, or a number of seconds. */
  datatype RetryAfter = Absent | Unreadable | Seconds(n: nat)

  datatype ApiError =
    | PlainError(status: int)
    | ValidationError(status: int)
    | AuthenticationError
    | AuthorizationError
    | NotFoundError
    | ConflictError(code: string, message: string)
    | PayloadTooLargeError
    | RateLimitError(retryAfter: nat)
    | QuotaExceededError
    | ServerError(status: int)
    | NetworkError
    | TimeoutError
    | CircuitBreakerOpenError
    | ForeignError                       // an exception that is not a SpooledError
  {
    predicate IsSpooled() {
      !ForeignError?
    }

    /** `isinstance(error, RateLimitError)`: a quota error is one by inheritance. */
    predicate IsRateLimit() {
      RateLimitError? || QuotaExceededError?
    }

    /** The overridden `is_retryable` of each class. */
    predicate IsRetryable()
      requires IsSpooled()
    {
      match this
      case PlainError(status) => status == 408
      case RateLimitError(_) => true
      case ServerError(_) => true
      case NetworkError => true
      case TimeoutError => true
      case _ => false
    }

    /** `record_failure` counts every error but a SpooledError that is not retryable. */
    predicate Counts() {
      IsSpooled() ==> IsRetryable()
    }
  }

  /** 409 `LEASE_EXPIRED`: the job is no longer this worker's. */
  predicate IsLeaseExpired(e: ApiError) {
    e.ConflictError? && UpperAll(e.code) == "LEASE_EXPIRED"
  }

  function CodeOf(body: Body): string {
    if body.DictBody? && body.code.Some? then body.code.value else "unknown_error"
  }

  function MessageOf(body: Body): string {
    if body.DictBody? && body.message.Some? then body.message.value
    else if body.TextBody? && body.text != "" then body.text
    else "Unknown error"
  }

  /** A 429 that is a plan limit rather than a rate limit. */
  predicate IsQuotaResponse(body: Body, header: RetryAfter) {
    if UpperAll(CodeOf(body)) == "QUOTA_EXCEEDED" then true
    else if !header.Absent? || !body.DictBody? then false
    else body.error == Some("limit_exceeded") || (body.hasResource && body.hasLimit && body.hasPlan)
  }

  const DEFAULT_RETRY_AFTER := 60

  function FromResponse(status: int, body: Body, header: RetryAfter): ApiError {
    if status == 422 then ValidationError(422)
    else if status == 429 && IsQuotaResponse(body, header) then QuotaExceededError
    else match status
      case 400 => ValidationError(400)
      case 401 => AuthenticationError
      case 403 => AuthorizationError
      case 404 => NotFoundError
      case 409 => ConflictError(CodeOf(body), MessageOf(body))
      case 413 => PayloadTooLargeError
      case 429 => RateLimitError(if header.Seconds? then header.n else DEFAULT_RETRY_AFTER)
      case _ => if 500 <= status < 600 then ServerError(status) else PlainError(status)
  }

  /** Exactly 408, 5xx and a 429 that is no plan limit are retryable. */
  lemma RetryableStatuses(status: int, body: Body, header: RetryAfter)
    ensures FromResponse(status, body, header).IsSpooled()
    ensures FromResponse(status, body, header).IsRetryable() <==>
      status == 408 || 500 <= status < 600 || (status == 429 && !IsQuotaResponse(body, header))
    ensures FromResponse(status, body, header).RateLimitError? <==> status == 429 && !IsQuotaResponse(body, header)
  {
  }

  /** The `status_code` of each class. */
  function StatusOf(e: ApiError): Option<int> {
    match e
    case PlainError(status) => Some(status)
    case ValidationError(status) => Some(status)
    case AuthenticationError => Some(401)
    case AuthorizationError => Some(403)
    case NotFoundError => Some(404)
    case ConflictError(_, _) => Some(409)
    case PayloadTooLargeError => Some(413)
    case RateLimitError(_) => Some(429)
    case QuotaExceededError => Some(429)
    case ServerError(status) => Some(status)
    case _ => None
  }

  /** The class chosen for an answer carries its status, and is the special one wherever there is one. */
  lemma StatusRoundTrip(status: int, body: Body, header: RetryAfter)
    ensures var e := FromResponse(status, body, header);
      && StatusOf(e) == Some(status)
      && (e.PlainError? <==> status !in {400, 401, 403, 404, 409, 413, 422, 429} && !(500 <= status < 600))
      && (e.ServerError? <==> 500 <= status < 600)
      && (e.RateLimitError? ==> e.retryAfter == (if header.Seconds? then header.n else 60))
  {
  }

  /**
   A 429 is a plan limit when its code says so in any case of letters.  Otherwise one that
   names a time to retry after never is, and one that does not is recognised by its body.
   */
  lemma QuotaAnswers(body: Body, header: RetryAfter)
    ensures body.DictBody? && body.code.Some? && Lower(body.code.value) == "quota_exceeded" ==> IsQuotaResponse(body, header)
    ensures !(body.DictBody? && body.code.Some? && Lower(body.code.value) == "quota_exceeded") ==>
      && (!header.Absent? || !body.DictBody? ==> !IsQuotaResponse(body, header))
      && (header.Absent? && body.DictBody? ==>
            (IsQuotaResponse(body, header) <==>
              body.error == Some("limit_exceeded") || (body.hasResource && body.hasLimit && body.hasPlan)))
  {
    InAnyCase(CodeOf(body), "QUOTA_EXCEEDED", "quota_exceeded");
    assert |UpperAll("unknown_error")| != |"QUOTA_EXCEEDED"|;
  }
}

/** The errors the orchestrator raises or lets through, and the status code
    each carries. */
module Errors {
  import opened Wrappers

  /** A value thrown by a collaborator (storage, session store, quota
      service, message bus).  `isError` says whether it is an `Error`
      instance; `statusCode` is the optional field the routes inspect. */
  datatype Thrown = Thrown(isError: bool, message: string, statusCode: Option<int>)

  datatype QuotaKind = Concurrent | Daily

  /** The orchestrator's failures: the four it creates itself and, for
      everything else, the collaborator's value rethrown unchanged. */
  datatype Failure =
    | UnsupportedContentType
    | PayloadTooLarge
    | QuotaExceeded(kind: QuotaKind)
    | NotFound
    | Rethrown(thrown: Thrown)

  /** The `code` attached to a quota rejection, which is also the message
      the quota service throws. */
  function QuotaCode(kind: QuotaKind): string {
    match kind
    case Concurrent => "concurrent_quota_exceeded"
    case Daily => "daily_quota_exceeded"
  }

  /** The `statusCode` field a failure carries, if any. */
  function StatusCode(f: Failure): Option<int> {
    match f
    case UnsupportedContentType => Some(415)
    case PayloadTooLarge => Some(413)
    case QuotaExceeded(_) => Some(429)
    case NotFound => Some(404)
    case Rethrown(t) => t.statusCode
  }

  /** The value is an `Error` instance (the orchestrator's own failures
      always are). */
  predicate IsErrorInstance(f: Failure) {
    !f.Rethrown? || f.thrown.isError
  }

  /** Translation of a rejected quota claim: only an `Error` whose message
      is one of the two quota codes becomes a 429 with that code; anything
      else is rethrown as it came. */
  function ClassifyClaimError(t: Thrown): (f: Failure)
    ensures f.QuotaExceeded? <==> t.isError && (t.message == QuotaCode(Concurrent) || t.message == QuotaCode(Daily))
    ensures f.QuotaExceeded? ==> QuotaCode(f.kind) == t.message && StatusCode(f) == Some(429)
    ensures !f.QuotaExceeded? ==> f == Rethrown(t)
  {
    if t.isError && t.message == QuotaCode(Concurrent) then QuotaExceeded(Concurrent)
    else if t.isError && t.message == QuotaCode(Daily) then QuotaExceeded(Daily)
    else Rethrown(t)
  }
}

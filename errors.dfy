/** The error registry: a closed set of error codes, their wire strings, and
    the three tables keyed by code (HTTP status, retry eligibility, owning
    layer), together with the rule for correlation ids on error payloads. */
module Errors {
  import opened Common

  datatype ErrorCode =
    // 1xx: resource errors
    | ResourceNotFound | ParentNotFound | ResourceConflict | ResourceStale
    // 2xx: validation errors
    | ValidationError | InvalidName | ValueOutOfRange | MissingRequiredField
    // 3xx: authorization errors
    | Unauthenticated | Forbidden | RateLimitExceeded
    // 4xx: external dependency errors
    | UpstreamError | UpstreamTimeout | StorageError
    // 5xx: internal errors
    | InternalError | ServiceUnavailable
    // 6xx: client-side errors
    | RequestCancelled | NetworkOffline | ClientTimeout

  /** The documentation groups 1xx to 6xx of the registry. */
  datatype ErrorGroup = Resource | Validation | Authorization | ExternalDependency | Internal | ClientSide

  function Group(c: ErrorCode): ErrorGroup {
    match c
    case ResourceNotFound | ParentNotFound | ResourceConflict | ResourceStale => Resource
    case ValidationError | InvalidName | ValueOutOfRange | MissingRequiredField => Validation
    case Unauthenticated | Forbidden | RateLimitExceeded => Authorization
    case UpstreamError | UpstreamTimeout | StorageError => ExternalDependency
    case InternalError | ServiceUnavailable => Internal
    case RequestCancelled | NetworkOffline | ClientTimeout => ClientSide
  }

  /** Every code in declaration order; the registry is closed. */
  const ALL_CODES: seq<ErrorCode> := [
    ResourceNotFound, ParentNotFound, ResourceConflict, ResourceStale,
    ValidationError, InvalidName, ValueOutOfRange, MissingRequiredField,
    Unauthenticated, Forbidden, RateLimitExceeded,
    UpstreamError, UpstreamTimeout, StorageError,
    InternalError, ServiceUnavailable,
    RequestCancelled, NetworkOffline, ClientTimeout]

  lemma AllCodesListed(c: ErrorCode)
    ensures c in ALL_CODES
  {
  }

  // ---------------------------------------------------------------------------
  // Wire strings: each code's string value equals its key.
  // ---------------------------------------------------------------------------

  function ToString(c: ErrorCode): string {
    match c
    case ResourceNotFound => "RESOURCE_NOT_FOUND"
    case ParentNotFound => "PARENT_NOT_FOUND"
    case ResourceConflict => "RESOURCE_CONFLICT"
    case ResourceStale => "RESOURCE_STALE"
    case ValidationError => "VALIDATION_ERROR"
    case InvalidName => "INVALID_NAME"
    case ValueOutOfRange => "VALUE_OUT_OF_RANGE"
    case MissingRequiredField => "MISSING_REQUIRED_FIELD"
    case Unauthenticated => "UNAUTHENTICATED"
    case Forbidden => "FORBIDDEN"
    case RateLimitExceeded => "RATE_LIMIT_EXCEEDED"
    case UpstreamError => "UPSTREAM_ERROR"
    case UpstreamTimeout => "UPSTREAM_TIMEOUT"
    case StorageError => "STORAGE_ERROR"
    case InternalError => "INTERNAL_ERROR"
    case ServiceUnavailable => "SERVICE_UNAVAILABLE"
    case RequestCancelled => "REQUEST_CANCELLED"
    case NetworkOffline => "NETWORK_OFFLINE"
    case ClientTimeout => "CLIENT_TIMEOUT"
  }

  /** Decodes a wire string by searching the registry; `None` for a string
      that names no code. */
  function FromString(s: string): (r: Option<ErrorCode>)
    ensures r.Some? ==> ToString(r.value) == s
    ensures r.None? ==> forall c :: ToString(c) != s
  {
    FindCode(ALL_CODES, s)
  }

  function FindCode(codes: seq<ErrorCode>, s: string): (r: Option<ErrorCode>)
    ensures r.Some? ==> r.value in codes && ToString(r.value) == s
    ensures r.None? ==> forall c :: c in codes ==> ToString(c) != s
  {
    if codes == [] then None
    else if ToString(codes[0]) == s then Some(codes[0])
    else FindCode(codes[1..], s)
  }

  /** Decoding the string of a code gives that code back. */
  lemma RoundTrip(c: ErrorCode)
    ensures FromString(ToString(c)) == Some(c)
  {
    AllCodesListed(c);
    var r := FromString(ToString(c));
    assert r.Some?;
    ToStringDistinct(r.value, c);
  }

  /** No two codes share a wire string (checked by length, then by one character). */
  lemma ToStringDistinct(a: ErrorCode, b: ErrorCode)
    requires ToString(a) == ToString(b)
    ensures a == b
  {
    var s := ToString(a);
    assert |ToString(b)| == |s|;
    match a
    case ResourceNotFound => assert s[2] == 'S';
    case ParentNotFound => assert s[0] == 'P';
    case ResourceConflict => assert s[9] == 'C';
    case ResourceStale => assert s[9] == 'S';
    case ValidationError => assert s[0] == 'V';
    case InvalidName => assert s[0] == 'I';
    case ValueOutOfRange => assert s[0] == 'V';
    case MissingRequiredField => assert s[0] == 'M';
    case Unauthenticated => assert s[0] == 'U';
    case Forbidden => assert s[0] == 'F';
    case RateLimitExceeded => assert s[0] == 'R';
    case UpstreamError => assert s[9] == 'E';
    case UpstreamTimeout => assert s[9] == 'T';
    case StorageError => assert s[0] == 'S';
    case InternalError => assert s[0] == 'I';
    case ServiceUnavailable => assert s[1] == 'E';
    case RequestCancelled => assert s[2] == 'Q';
    case NetworkOffline => assert s[0] == 'N';
    case ClientTimeout => assert s[0] == 'C';
  }

  /** Distinct codes have distinct wire strings. */
  lemma ToStringInjective(a: ErrorCode, b: ErrorCode)
    ensures a != b ==> ToString(a) != ToString(b)
  {
    RoundTrip(a);
    RoundTrip(b);
  }

  // ---------------------------------------------------------------------------
  // HTTP status table
  // ---------------------------------------------------------------------------

  /** The statuses the registry's mapping rules allow. */
  const ALLOWED_HTTP_STATUSES: set<int> := {400, 401, 403, 404, 409, 422, 429, 500, 502, 503, 504}

  /** The status the API returns for a code; `None` for client-side codes,
      which never reach the server. */
  function HttpStatus(c: ErrorCode): (r: Option<int>)
    ensures r.None? <==> Group(c) == ClientSide
    ensures r.Some? ==> r.value in ALLOWED_HTTP_STATUSES
    ensures Group(c) == Validation ==> r == Some(422)
  {
    match c
    case ResourceNotFound => Some(404)
    case ParentNotFound => Some(404)
    case ResourceConflict => Some(409)
    case ResourceStale => Some(409)
    case ValidationError => Some(422)
    case InvalidName => Some(422)
    case ValueOutOfRange => Some(422)
    case MissingRequiredField => Some(422)
    case Unauthenticated => Some(401)
    case Forbidden => Some(403)
    case RateLimitExceeded => Some(429)
    case UpstreamError => Some(502)
    case UpstreamTimeout => Some(504)
    case StorageError => Some(500)
    case InternalError => Some(500)
    case ServiceUnavailable => Some(503)
    case RequestCancelled => None
    case NetworkOffline => None
    case ClientTimeout => None
  }

  // ---------------------------------------------------------------------------
  // Retry eligibility table
  // ---------------------------------------------------------------------------

  /** `true`, `false` and `'after-user-action'` of the registry. */
  datatype RetryEligibility = Retryable | NotRetryable | AfterUserAction

  function RetryEligibilityOf(c: ErrorCode): (r: RetryEligibility)
    ensures Group(c) == Validation ==> r == AfterUserAction
    ensures Group(c) in {ExternalDependency, Internal, ClientSide} ==> r == Retryable
    ensures Group(c) == Resource ==> (r == AfterUserAction <==> c == ResourceStale)
    ensures Group(c) == Resource && c != ResourceStale ==> r == NotRetryable
    ensures Group(c) == Authorization ==>
              (r == AfterUserAction <==> c == Unauthenticated) && (r == Retryable <==> c == RateLimitExceeded)
  {
    match c
    case ResourceNotFound => NotRetryable
    case ParentNotFound => NotRetryable
    case ResourceConflict => NotRetryable
    case ResourceStale => AfterUserAction
    case ValidationError => AfterUserAction
    case InvalidName => AfterUserAction
    case ValueOutOfRange => AfterUserAction
    case MissingRequiredField => AfterUserAction
    case Unauthenticated => AfterUserAction
    case Forbidden => NotRetryable
    case RateLimitExceeded => Retryable
    case UpstreamError => Retryable
    case UpstreamTimeout => Retryable
    case StorageError => Retryable
    case InternalError => Retryable
    case ServiceUnavailable => Retryable
    case RequestCancelled => Retryable
    case NetworkOffline => Retryable
    case ClientTimeout => Retryable
  }

  /** Collapses the three-valued eligibility to "safe to retry without user
      input": only `true` entries retry automatically. */
  function Collapse(e: RetryEligibility): bool {
    match e
    case Retryable => true
    case NotRetryable => false
    case AfterUserAction => false
  }

  /** The `isRetryable` flag the orchestrator attaches to an error of code `c`. */
  function IsAutoRetryable(c: ErrorCode): (r: bool)
    ensures r <==> Group(c) in {ExternalDependency, Internal, ClientSide} || c == RateLimitExceeded
    ensures HttpStatus(c).None? ==> r
  {
    Collapse(RetryEligibilityOf(c))
  }

  // ---------------------------------------------------------------------------
  // Ownership table
  // ---------------------------------------------------------------------------

  /** 'api', 'orchestrator' and 'client' of the registry. */
  datatype Owner = Api | OrchestratorLayer | Client

  function Ownership(c: ErrorCode): (r: Owner)
    ensures r == Client <==> HttpStatus(c).None?
    ensures r != OrchestratorLayer
  {
    match c
    case RequestCancelled => Client
    case NetworkOffline => Client
    case ClientTimeout => Client
    case ResourceNotFound => Api
    case ParentNotFound => Api
    case ResourceConflict => Api
    case ResourceStale => Api
    case ValidationError => Api
    case InvalidName => Api
    case ValueOutOfRange => Api
    case MissingRequiredField => Api
    case Unauthenticated => Api
    case Forbidden => Api
    case RateLimitExceeded => Api
    case UpstreamError => Api
    case UpstreamTimeout => Api
    case StorageError => Api
    case InternalError => Api
    case ServiceUnavailable => Api
  }

  // ---------------------------------------------------------------------------
  // Error payloads and correlation ids
  // ---------------------------------------------------------------------------

  /** The fields every error payload carries. Timestamps are abstract naturals. */
  datatype ErrorRecord = ErrorRecord(code: ErrorCode, message: string, occurredAt: nat, correlationId: Option<string>)

  /** How a request failed, as the API client reports it: either the server
      answered with an error (and a correlation id for tracing), or the request
      failed on the client before any answer arrived. */
  datatype TransportError =
    | ServerFailure(code: ErrorCode, message: string, serverCorrelationId: string)
    | ClientFailure(code: ErrorCode, message: string)

  /** A client-side code is one that never reached the server, so a failure
      is reported by the client exactly when its code is client-side. */
  predicate ConsistentFailure(f: TransportError) {
    f.ClientFailure? <==> Group(f.code) == ClientSide
  }

  /** The failures the API client can report. */
  type TransportFailure = f: TransportError | ConsistentFailure(f) witness ClientFailure(NetworkOffline, "")

  /** The payload for a failure observed at time `at`: the correlation id is
      passed through for server errors and absent for client-side ones. */
  function ToErrorRecord(f: TransportFailure, at: nat): (e: ErrorRecord)
    ensures e.code == f.code && e.message == f.message && e.occurredAt == at
    ensures e.correlationId.Some? <==> f.ServerFailure?
    ensures f.ServerFailure? ==> e.correlationId == Some(f.serverCorrelationId)
  {
    match f
    case ServerFailure(code, message, cid) => ErrorRecord(code, message, at, Some(cid))
    case ClientFailure(code, message) => ErrorRecord(code, message, at, None)
  }

  /** The correlation-id rule of an error payload: present exactly when the
      error came back from the server. */
  predicate CorrelationRule(e: ErrorRecord, reachedServer: bool) {
    e.correlationId.Some? <==> reachedServer
  }

  /** Translated failures obey the correlation rule, and whether an id is
      present follows from the code alone: exactly the codes with an HTTP
      status carry one, the client-owned codes never do, and INTERNAL_ERROR
      always does. */
  lemma TranslatedCorrelation(f: TransportFailure, at: nat)
    ensures CorrelationRule(ToErrorRecord(f, at), f.ServerFailure?)
    ensures ToErrorRecord(f, at).correlationId.Some? <==> HttpStatus(f.code).Some?
    ensures ToErrorRecord(f, at).correlationId.None? <==> Ownership(f.code) == Client
    ensures f.code == InternalError ==> ToErrorRecord(f, at).correlationId.Some?
  {
  }
}

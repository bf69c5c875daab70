/** The error values of src/error.ts and of the client's failed request: which
    kind of provider error an HTTP status becomes, and what it carries. */
module Errors {
  import opened Wrappers
  import opened Text

  /** What a response delivered to the error builders: the status, the status
      text (nullish when absent) and the raw `retry-after` header (null when
      absent). */
  datatype HttpResponse = HttpResponse(status: int, statusText: Option<string>, retryAfter: Option<string>)

  /** The statusText an error carries: the response's text, the numeric status
      put in its place, or nothing at all. */
  datatype StatusText = Text(text: string) | Code(code: int) | Missing

  /** A JavaScript number as produced by Number(...) on a header value. */
  datatype JsNumber = Finite(value: int) | NaN

  datatype ErrorKind =
    | ProviderApi       // IntegrationProviderAPIError
    | Authentication    // IntegrationProviderAuthenticationError (401)
    | Authorization     // IntegrationProviderAuthorizationError (403)
    | Retryable         // RetryableIntegrationProviderApiError
    | RateLimit(retryAfter: JsNumber)  // RateLimitError (429)

  datatype ApiError = ApiError(kind: ErrorKind, endpoint: string, status: int, statusText: StatusText)

  /** The `retryable` field: set to true by the two retryable error classes and
      absent from the others. */
  predicate IsRetryable(e: ApiError)
  {
    e.kind.Retryable? || e.kind.RateLimit?
  }

  /** Number(header) for a header that is null or a string of decimal digits;
      any other text is NaN. */
  function HeaderNumber(h: Option<string>): (n: JsNumber)
    ensures h.None? ==> n == Finite(0)
    ensures h.Some? && h.value == "" ==> n == Finite(0)
    ensures h.Some? && !AllDigits(h.value) ==> n == NaN
  {
    match h
    case None => Finite(0)
    case Some(s) => if AllDigits(s) then Finite(ParseDecimal(s)) else NaN
  }

  /** A `retry-after` header holding the decimal text of n reads as n. */
  lemma HeaderNumberOfDecimal(n: nat)
    ensures HeaderNumber(Some(DecimalString(n))) == Finite(n)
  {
    ParseDecimalString(n);
  }

  /** `response.statusText ?? response.status`: only a missing text is
      replaced; an empty text is kept. */
  function TextOrStatus(r: HttpResponse): (t: StatusText)
    ensures r.statusText.Some? ==> t == Text(r.statusText.value)
    ensures r.statusText.None? ==> t == Code(r.status)
  {
    if r.statusText.Some? then Text(r.statusText.value) else Code(r.status)
  }

  /** The statusText passed through without a fallback. */
  function RawText(r: HttpResponse): (t: StatusText)
    ensures t.Missing? <==> r.statusText.None?
  {
    if r.statusText.Some? then Text(r.statusText.value) else Missing
  }

  /** retryableRequestError: 429 becomes a rate-limit error carrying the
      numeric retry-after header and the raw status text; every other status a
      plain retryable error whose statusText falls back to the status. */
  function RetryableRequestError(url: string, r: HttpResponse): (e: ApiError)
    ensures IsRetryable(e)
    ensures e.endpoint == url && e.status == r.status
    ensures e.kind.RateLimit? <==> r.status == 429
    ensures r.status == 429 ==> e.kind.retryAfter == HeaderNumber(r.retryAfter) && e.statusText == RawText(r)
    ensures r.status != 429 ==> e.kind == Retryable && e.statusText == TextOrStatus(r)
  {
    if r.status == 429 then
      ApiError(RateLimit(HeaderNumber(r.retryAfter)), url, r.status, RawText(r))
    else
      ApiError(Retryable, url, r.status, TextOrStatus(r))
  }

  /** fatalRequestError: 401 is an authentication error, 403 an authorization
      error, anything else a generic provider error; none is retryable. */
  function FatalRequestError(url: string, r: HttpResponse): (e: ApiError)
    ensures !IsRetryable(e)
    ensures e.endpoint == url && e.status == r.status && e.statusText == TextOrStatus(r)
    ensures e.kind == Authentication <==> r.status == 401
    ensures e.kind == Authorization <==> r.status == 403
    ensures e.kind == ProviderApi <==> r.status != 401 && r.status != 403
  {
    var kind := if r.status == 401 then Authentication
                else if r.status == 403 then Authorization
                else ProviderApi;
    ApiError(kind, url, r.status, TextOrStatus(r))
  }

  /** Whether fetch's `response.ok` holds: a status in 200..299. */
  predicate IsOk(status: int)
  {
    200 <= status <= 299
  }

  /** The error `request` throws for a response that is not ok. */
  function RequestError(uri: string, r: HttpResponse): ApiError
  {
    ApiError(ProviderApi, uri, r.status, RawText(r))
  }

  /** The client's `request`: an ok response is returned, any other one is
      thrown at once as a generic provider error with the raw status text. */
  function Request(uri: string, r: HttpResponse): (o: Result<HttpResponse, ApiError>)
    ensures o.Ok? <==> IsOk(r.status)
    ensures o.Ok? ==> o.value == r
    ensures o.Err? ==> o.error == ApiError(ProviderApi, uri, r.status, RawText(r)) && !IsRetryable(o.error)
  {
    if IsOk(r.status) then Ok(r) else Err(RequestError(uri, r))
  }
}

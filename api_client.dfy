/**
 * The request side of the API client: base-URL resolution, joining a base URL and a path,
 * the request headers, the handling of the response status (including the 401 path that
 * deletes the credential and announces `auth:unauthorized`), and the unwrapping of the
 * server's `BaseResponse` envelope.
 *
 * `fetch` and `response.json()` are not modelled: the response, or its absence when `fetch`
 * itself throws, is a parameter, and a body that does not parse as JSON is `None`.
 */
module ApiClient {
  import opened Wrappers
  import opened Strings
  import opened TokenStorage

  // ---------------------------------------------------------------------------
  // Base URLs
  // ---------------------------------------------------------------------------

  /** `normalizeEnvUrl`: a missing, empty or all-whitespace value gives nothing, anything
      else is returned trimmed. */
  function NormalizeEnvUrl(value: Option<string>): (url: Option<string>)
    ensures url.None? <==> value.None? || Trim(value.value) == []
    ensures url.Some? ==> url.value != [] && url.value == Trim(value.value)
  {
    match value
    case None => None
    case Some(v) =>
      if v == "" then None
      else
        var trimmed := Trim(v);
        if |trimmed| > 0 then Some(trimmed) else None
  }

  /** A normalised value is already normal. */
  lemma NormalizeEnvUrlIdempotent(value: Option<string>)
    ensures NormalizeEnvUrl(NormalizeEnvUrl(value)) == NormalizeEnvUrl(value)
  {
    if NormalizeEnvUrl(value).Some? {
      TrimIdempotent(value.value);
    }
  }

  /** The development and production settings of one back end. */
  datatype Endpoint = Endpoint(devDefault: string, prodDefault: string)

  const ApiEndpoint := Endpoint("http://localhost:3000/api/proxy/", "https://ai-api.bamtoly.com/")
  const OxEndpoint := Endpoint("http://localhost:8001/api/v1/", "https://ox-universe.bamtoly.com/api/v1/")

  /** `getBaseUrl` / `getOxBaseUrl`: the normalised environment variable if set, otherwise
      the configured URL for the build (development or production), otherwise the built-in
      default; a configured empty string counts as unset. */
  function ResolveBaseUrl(endpoint: Endpoint, envValue: Option<string>, isDev: bool,
                          configuredDev: Option<string>, configuredProd: Option<string>): (url: string)
    ensures NormalizeEnvUrl(envValue).Some? ==> url == NormalizeEnvUrl(envValue).value
    ensures NormalizeEnvUrl(envValue).None? && isDev ==>
      url == (if IsBlank(configuredDev) then endpoint.devDefault else configuredDev.value)
    ensures NormalizeEnvUrl(envValue).None? && !isDev ==>
      url == (if IsBlank(configuredProd) then endpoint.prodDefault else configuredProd.value)
  {
    var env := NormalizeEnvUrl(envValue);
    if env.Some? then env.value
    else if isDev then (if IsBlank(configuredDev) then endpoint.devDefault else configuredDev.value)
    else if IsBlank(configuredProd) then endpoint.prodDefault else configuredProd.value
  }

  /** Whatever the environment and configuration, both back ends get a non-empty base URL. */
  lemma BaseUrlNeverEmpty(envValue: Option<string>, isDev: bool, configuredDev: Option<string>,
                          configuredProd: Option<string>)
    ensures ResolveBaseUrl(ApiEndpoint, envValue, isDev, configuredDev, configuredProd) != []
    ensures ResolveBaseUrl(OxEndpoint, envValue, isDev, configuredDev, configuredProd) != []
  {
  }

  // ---------------------------------------------------------------------------
  // URL joining and headers
  // ---------------------------------------------------------------------------

  predicate EndsWithSlash(s: string) { |s| > 0 && s[|s| - 1] == '/' }

  predicate StartsWithSlash(s: string) { |s| > 0 && s[0] == '/' }

  /** `${baseUrl}${cleanUrl}`, where `cleanUrl` drops the path's leading `/` when the base
      already ends with one. */
  function JoinUrl(baseUrl: string, url: string): (full: string)
    ensures baseUrl <= full
    ensures |full| == |baseUrl| + |url| - (if EndsWithSlash(baseUrl) && StartsWithSlash(url) then 1 else 0)
    ensures full[|baseUrl|..] == url[|url| - (|full| - |baseUrl|)..]
  {
    var cleanUrl := if EndsWithSlash(baseUrl) && StartsWithSlash(url) then url[1..] else url;
    baseUrl + cleanUrl
  }

  /** A path with or without its leading `/` reaches the same URL under a base ending in `/`,
      and at most one `/` is removed, so `//p` keeps one of its two. */
  lemma JoinUrlSlash(baseUrl: string, path: string)
    requires EndsWithSlash(baseUrl)
    ensures JoinUrl(baseUrl, "/" + path) == baseUrl + path
    ensures !StartsWithSlash(path) ==> JoinUrl(baseUrl, path) == JoinUrl(baseUrl, "/" + path)
    ensures JoinUrl(baseUrl, "//" + path) == baseUrl + "/" + path
  {
    assert ("/" + path)[1..] == path;
    assert ("//" + path)[1..] == "/" + path;
  }

  /** Without a `/` on both sides of the seam the two parts are simply concatenated. */
  lemma JoinUrlConcatenates(baseUrl: string, url: string)
    requires !EndsWithSlash(baseUrl) || !StartsWithSlash(url)
    ensures JoinUrl(baseUrl, url) == baseUrl + url
  {
    var full := JoinUrl(baseUrl, url);
    assert full == full[..|baseUrl|] + full[|baseUrl|..];
  }

  /** Whether the token read from storage is truthy. */
  predicate HasToken(token: Option<string>) {
    !IsBlank(token)
  }

  /** The request headers: `Content-Type: application/json`, then `Authorization: Bearer
      <token>` (section 2.1 of RFC 6750) only when a token is held, and the caller's own
      headers spread last so that they override either default. */
  function BuildHeaders(token: Option<string>, callerHeaders: map<string, string>): (headers: map<string, string>)
    ensures headers.Keys == callerHeaders.Keys + {"Content-Type"} + (if HasToken(token) then {"Authorization"} else {})
    ensures forall k :: k in callerHeaders ==> headers[k] == callerHeaders[k]
    ensures "Content-Type" !in callerHeaders ==> headers["Content-Type"] == "application/json"
    ensures "Authorization" !in callerHeaders ==>
      ("Authorization" in headers <==> HasToken(token))
    ensures "Authorization" !in callerHeaders && HasToken(token) ==>
      headers["Authorization"] == "Bearer " + token.value
  {
    var defaults := map["Content-Type" := "application/json"];
    var withAuth := if HasToken(token) then defaults["Authorization" := "Bearer " + token.value] else defaults;
    withAuth + callerHeaders
  }

  /** The credentials of a default `Authorization` header are exactly the stored token,
      after the `Bearer` scheme and one space. */
  lemma BearerCarriesToken(token: Option<string>, callerHeaders: map<string, string>)
    requires HasToken(token) && "Authorization" !in callerHeaders
    ensures var v := BuildHeaders(token, callerHeaders)["Authorization"];
      |v| > 7 && v[..7] == "Bearer " && v[7..] == token.value
  {
    var v := BuildHeaders(token, callerHeaders)["Authorization"];
    assert v == "Bearer " + token.value;
  }

  // ---------------------------------------------------------------------------
  // Responses
  // ---------------------------------------------------------------------------

  /** The parts of a `Response` the client reads; `json` is `None` when the body does not
      parse. */
  datatype HttpResponse<T> = HttpResponse(status: int, statusText: string, contentLength: Option<string>, json: Option<T>)

  /** The rejection payload's `data`: the parsed body, or `{ message: statusText }`. */
  datatype ErrorData<T> = Body(value: T) | StatusMessage(message: string)

  /** How a request ends: resolved with `{ data }`; thrown `UnauthorizedError`; rejected
      with `{ response: { data, status, statusText } }`; or rethrown (the request or the
      success body's parsing failed). */
  datatype FetchOutcome<T> =
    | Data(data: Option<T>)
    | Unauthorized
    | Rejected(errorData: ErrorData<T>, status: int, statusText: string)
    | Failed

  /** What the client announces and deletes, in order. */
  datatype ClientEffect = CredentialDeleted | UnauthorizedEmitted(url: string, status: int)

  /** `response.ok`. */
  predicate IsOk(status: int) { 200 <= status <= 299 }

  /** The outcome for a response, `None` when `fetch` throws. */
  function FetchResult<T>(response: Option<HttpResponse<T>>): (outcome: FetchOutcome<T>)
    ensures outcome.Unauthorized? <==> response.Some? && response.value.status == 401
    ensures outcome.Rejected? <==> response.Some? && !IsOk(response.value.status) && response.value.status != 401
    ensures outcome.Rejected? ==> outcome.status == response.value.status && outcome.statusText == response.value.statusText
    ensures outcome.Rejected? && response.value.json.None? ==> outcome.errorData == StatusMessage(response.value.statusText)
    ensures outcome.Rejected? && response.value.json.Some? ==> outcome.errorData == Body(response.value.json.value)
    ensures response.Some? && IsOk(response.value.status)
            && (response.value.status == 204 || response.value.contentLength == Some("0")) ==>
      outcome == Data(None)
    ensures outcome.Data? ==> response.Some? && IsOk(response.value.status)
    ensures outcome.Data? && outcome.data.None? ==>
      response.value.status == 204 || response.value.contentLength == Some("0")
    ensures outcome.Data? && outcome.data.Some? ==> outcome.data == response.value.json
  {
    match response
    case None => Failed
    case Some(r) =>
      if !IsOk(r.status) then
        if r.status == 401 then Unauthorized
        else Rejected(if r.json.Some? then Body(r.json.value) else StatusMessage(r.statusText), r.status, r.statusText)
      else if r.status == 204 || r.contentLength == Some("0") then Data(None)
      else if r.json.Some? then Data(r.json)
      else Failed
  }

  /** A successful response always resolves, except when its body must be parsed and is not
      JSON. */
  lemma OkResponseResolves<T>(r: HttpResponse<T>)
    requires IsOk(r.status)
    ensures FetchResult(Some(r)).Data? <==> r.status == 204 || r.contentLength == Some("0") || r.json.Some?
  {
  }

  /** A request to one of the API's endpoints. */
  datatype Request = Request(url: string, headers: map<string, string>)

  /** The client returned by `createCustomFetch`: it shares the credential store and keeps
      the trail of credential deletions and `auth:unauthorized` events it causes. */
  class Client {
    const store: CredentialStore
    var effects: seq<ClientEffect>

    constructor(store: CredentialStore)
      ensures this.store == store && effects == []
    {
      this.store := store;
      this.effects := [];
    }

    /** One request: join the URL, read the token, build the headers, send, and classify the
        response. On 401 the credential is deleted and then `auth:unauthorized` is emitted
        with the full URL, before the unauthorized outcome is returned; nothing else touches
        the store beyond the token read. */
    method Fetch<T>(baseUrl: string, url: string, callerHeaders: map<string, string>,
                    probe: Probe, readFaults: Faults, deleteFaults: Faults,
                    response: Option<HttpResponse<T>>)
      returns (request: Request, outcome: FetchOutcome<T>)
      requires store.Valid()
      modifies this, store
      ensures store.Valid()
      ensures request.url == JoinUrl(baseUrl, url)
      ensures request.headers == BuildHeaders(ReadOutcome(old(store.State()), store.isWeb, probe, readFaults), callerHeaders)
      ensures outcome == FetchResult(response)
      ensures outcome.Unauthorized? ==>
        && effects == old(effects) + [CredentialDeleted, UnauthorizedEmitted(request.url, 401)]
        && store.State() == AfterDelete(Decided(old(store.State()), store.isWeb, probe), store.isWeb, probe, deleteFaults)
      ensures !outcome.Unauthorized? ==>
        && effects == old(effects)
        && store.State() == Decided(old(store.State()), store.isWeb, probe)
    {
      var fullUrl := JoinUrl(baseUrl, url);
      var token := store.GetToken(probe, readFaults);
      request := Request(fullUrl, BuildHeaders(token, callerHeaders));
      outcome := FetchResult(response);
      if outcome.Unauthorized? {
        store.DeleteToken(probe, deleteFaults);
        effects := effects + [CredentialDeleted];
        effects := effects + [UnauthorizedEmitted(fullUrl, 401)];
      }
    }
  }

  // ---------------------------------------------------------------------------
  // The response envelope
  // ---------------------------------------------------------------------------

  /** The `error` member of the envelope. */
  datatype ApiError = ApiError(message: Option<string>)

  /** `BaseResponse<T>`. */
  datatype BaseResponse<T> = BaseResponse(success: bool, data: Option<T>, error: Option<ApiError>)

  /** Unwrapped data, the message of the thrown `Error`, or the `TypeError` raised by reading
      `success` of a `null` envelope. */
  datatype Parsed<T> = Unwrapped(data: Option<T>) | Thrown(message: string) | NullEnvelope

  /** `parseBaseResponse` on the `data` the client resolved with, `None` for `null` (a 204 or
      `content-length: 0` answer): `data` when `success`; otherwise an error whose message is
      the envelope's error message, or `API Error` when that is missing or empty. */
  function ParseBaseResponse<T>(response: Option<BaseResponse<T>>): (r: Parsed<T>)
    ensures r.NullEnvelope? <==> response.None?
    ensures r.Unwrapped? <==> response.Some? && response.value.success
    ensures r.Unwrapped? ==> r.data == response.value.data
    ensures r.Thrown? ==> r.message != []
    ensures r.Thrown? && response.value.error.Some? && !IsBlank(response.value.error.value.message) ==>
      r.message == response.value.error.value.message.value
    ensures r.Thrown? && (response.value.error.None? || IsBlank(response.value.error.value.message)) ==>
      r.message == "API Error"
  {
    match response
    case None => NullEnvelope
    case Some(envelope) =>
      if !envelope.success then
        Thrown(if envelope.error.Some? && !IsBlank(envelope.error.value.message)
               then envelope.error.value.message.value else "API Error")
      else Unwrapped(envelope.data)
  }

  /** A body-less success answer to an endpoint that expects the envelope cannot be
      unwrapped: the client resolves with `null` data, and unwrapping it throws. */
  lemma EmptySuccessCannotBeUnwrapped<T>(r: HttpResponse<BaseResponse<T>>)
    requires IsOk(r.status) && (r.status == 204 || r.contentLength == Some("0"))
    ensures FetchResult(Some(r)) == Data(None)
    ensures ParseBaseResponse(FetchResult(Some(r)).data) == NullEnvelope
  {
  }
}

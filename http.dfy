/** The transport: query-string and URL construction, headers, the deadline, and the
    classification of a request's outcome into a decoded value or an APIError. The
    network exchange itself is a parameter (`Exchange`), so each request is modelled by
    the request value it sends and the outcome the network answers with. */
module Http {
  import opened Wrappers
  import opened Text
  import opened Types
  import opened FormUrlEncoded

  const FieldsKey := "fields"
  const LocaleKey := "locale_code"

  const ContentTypeHeader := "Content-Type"
  const UserAgentHeader := "User-Agent"
  const ApiKeyHeader := "x-api-key"
  const JsonContentType := "application/json"
  const UserAgent := "ip-sonar-js/1.0.0"

  const DefaultTimeout := 10000

  const ParseFailedMessage := "Failed to parse response as JSON"
  const NetworkErrorMessage := "Network error: Failed to connect to API"
  const TimeoutMessage := "Request timeout"
  const RequestFailedPrefix := "Request failed: "

  /** JavaScript truthiness of an optional string: defined and non-empty. */
  predicate Truthy(s: Option<string>) {
    s.Some? && s.value != ""
  }

  // ---------------------------------------------------------------- errors

  /** `createAPIError`: the status is attached only when given, the body always
      (possibly `undefined`), and the API message only when it is non-empty. */
  function CreateAPIError(message: string, status: Option<nat>, body: Option<Json>, apiMessage: Option<string>): (e: APIError)
    ensures e.message == message && e.status == status && e.body == body
    ensures e.apiMessage.Some? <==> Truthy(apiMessage)
    ensures e.apiMessage.Some? ==> e.apiMessage == apiMessage
  {
    APIError(message, status, body, if Truthy(apiMessage) then apiMessage else None)
  }

  /** The `message` member of a decoded error body, when the body is an object holding
      a string there. */
  function BodyMessage(body: Json): Option<string> {
    if body.JObject? && "message" in body.members && body.members["message"].JString?
    then Some(body.members["message"].str)
    else None
  }

  /** The body of a non-OK response decoded as JSON and carrying a non-empty message. */
  predicate CarriesMessage(json: Option<Json>) {
    json.Some? && Truthy(BodyMessage(json.value))
  }

  /** The error for a non-OK response: `json` is the body decoded as JSON (`None` when
      that failed) and `text` the body read as text (`None` when that failed too). */
  function NonOkError(status: nat, statusText: string, json: Option<Json>, text: Option<string>): (e: APIError)
    ensures e.status == Some(status)
    ensures e.body == Some(if json.Some? then json.value else if text.Some? then JString(text.value) else JNull)
    ensures CarriesMessage(json) ==> e.message == BodyMessage(json.value).value && e.apiMessage == BodyMessage(json.value)
    ensures !CarriesMessage(json) ==> e.message == "HTTP " + NatToString(status) + ": " + statusText && e.apiMessage.None?
  {
    var errorBody := if json.Some? then json.value else if text.Some? then JString(text.value) else JNull;
    var apiMessage := if json.Some? then BodyMessage(json.value) else None;
    var errorMessage := if Truthy(apiMessage) then apiMessage.value else "HTTP " + NatToString(status) + ": " + statusText;
    CreateAPIError(errorMessage, Some(status), Some(errorBody), apiMessage)
  }

  // ---------------------------------------------------------------- outcomes

  /** An exception the platform raised: whether it is a `TypeError`, its `name`, its `message`. */
  datatype JsError = JsError(isTypeError: bool, name: string, message: string)

  /** What the network answered: a response (its status, status text, its body decoded
      as JSON or `None` when that fails, its body as text or `None` when that fails), or
      an exception thrown by `fetch` (an abort when the deadline passed). */
  datatype Outcome =
    | Responded(status: nat, statusText: string, json: Option<Json>, text: Option<string>)
    | Threw(error: JsError)
  {
    /** `response.ok`: a status in the range 200-299. */
    predicate Ok() {
      Responded? && 200 <= status <= 299
    }
  }

  /** What reaches the `catch` block: an APIError raised inside the `try`, or a platform exception. */
  datatype Thrown = ApiThrown(api: APIError) | JsThrown(js: JsError)

  /** The `try` block of `request`, from the response onwards. */
  function TryBlock(o: Outcome): (r: Result<Json, Thrown>)
    ensures r.Success? <==> o.Ok() && o.json.Some?
    ensures r.Success? ==> o.json == Some(r.value)
    ensures (r.Failure? && r.error.JsThrown?) <==> o.Threw?
    ensures r.Failure? && r.error.ApiThrown? ==> r.error.api.status.Some?
  {
    match o
    case Threw(e) => Failure(JsThrown(e))
    case Responded(status, statusText, json, text) =>
      if !o.Ok() then Failure(ApiThrown(NonOkError(status, statusText, json, text)))
      else if json.Some? then Success(json.value)
      else Failure(ApiThrown(CreateAPIError(ParseFailedMessage, Some(status), None, None)))
  }

  /** The `catch` block of `request`. An APIError is a plain `Error` (not a `TypeError`,
      named "Error"), so only the status test applies to it. */
  function CatchBlock(t: Thrown): (e: APIError)
    ensures t.ApiThrown? && t.api.status.Some? ==> e == t.api
    ensures t.JsThrown? ==> e.status.None? && e.body.None? && e.apiMessage.None?
  {
    match t
    case JsThrown(err) =>
      if err.isTypeError && Contains(err.message, "fetch") then CreateAPIError(NetworkErrorMessage, None, None, None)
      else if err.name == "AbortError" then CreateAPIError(TimeoutMessage, None, None, None)
      else CreateAPIError(RequestFailedPrefix + err.message, None, None, None)
    case ApiThrown(a) =>
      if a.status.Some? then a else CreateAPIError(RequestFailedPrefix + a.message, None, None, None)
  }

  /** The result of `request` for a given outcome. */
  function Classify(o: Outcome): (r: Result<Json, APIError>)
    // succeeds exactly on an OK response whose body decodes, with that value
    ensures r.Success? <==> o.Ok() && o.json.Some?
    ensures r.Success? ==> r.value == o.json.value
    // a non-OK response: its status, message, API message and body
    ensures o.Responded? && !o.Ok() ==> r == Failure(NonOkError(o.status, o.statusText, o.json, o.text))
    // an OK response whose body does not decode
    ensures o.Ok() && o.json.None? ==> r == Failure(APIError(ParseFailedMessage, Some(o.status), None, None))
    // platform exceptions: no status, no body, a fixed or wrapped message
    ensures o.Threw? ==> r.Failure? && r.error.status.None? && r.error.body.None? && r.error.apiMessage.None?
    ensures o.Threw? && o.error.isTypeError && Contains(o.error.message, "fetch") ==>
      r.error.message == NetworkErrorMessage
    ensures o.Threw? && !(o.error.isTypeError && Contains(o.error.message, "fetch")) && o.error.name == "AbortError" ==>
      r.error.message == TimeoutMessage
    ensures o.Threw? && !(o.error.isTypeError && Contains(o.error.message, "fetch")) && o.error.name != "AbortError" ==>
      r.error.message == RequestFailedPrefix + o.error.message
  {
    match TryBlock(o)
    case Success(v) => Success(v)
    case Failure(t) => Failure(CatchBlock(t))
  }

  /** Errors raised inside the `try` carry a status, so the `catch` passes them on unchanged. */
  lemma ResponseErrorsPassThrough(o: Outcome)
    requires o.Responded?
    requires TryBlock(o).Failure?
    ensures TryBlock(o).error.ApiThrown?
    ensures Classify(o) == Failure(TryBlock(o).error.api)
  {
  }

  // ---------------------------------------------------------------- query string

  /** The pairs `buildQueryString` appends, in order. */
  function Pairs(p: LookupParams): (list: seq<(string, string)>)
    ensures list == [] <==> !p.fields.Present? && !p.localeCode.Present?
    ensures |list| <= 2
    ensures forall i, j :: 0 <= i < j < |list| ==> list[i].0 != list[j].0
    ensures forall i :: 0 <= i < |list| ==> list[i].0 == FieldsKey || list[i].0 == LocaleKey
    ensures forall i :: 0 <= i < |list| && list[i].0 == FieldsKey ==> p.fields == Present(list[i].1)
    ensures forall i :: 0 <= i < |list| && list[i].0 == LocaleKey ==>
      p.localeCode.Present? && p.localeCode.value.Tag() == list[i].1
    ensures p.fields.Present? ==> list[0] == (FieldsKey, p.fields.value)
    ensures p.localeCode.Present? ==> list[|list| - 1] == (LocaleKey, p.localeCode.value.Tag())
  {
    (if p.fields.Present? then [(FieldsKey, p.fields.value)] else [])
    + (if p.localeCode.Present? then [(LocaleKey, p.localeCode.value.Tag())] else [])
  }

  /** The query string of `buildQueryString`. */
  function QueryString(p: LookupParams, encode: Encoder): (q: string)
    ensures q == "" <==> !p.fields.Present? && !p.localeCode.Present?
    ensures q != "" ==> q[0] == '?' && q[1..] == Serialize(Pairs(p), encode)
  {
    var s := Serialize(Pairs(p), encode);
    if s != "" then "?" + s else ""
  }

  /** `buildQueryString`, appending to a fresh `URLSearchParams` step by step; an
      absent argument defaults to `{}`. */
  method BuildQueryString(params: Option<LookupParams>, encode: Encoder) returns (q: string)
    ensures q == QueryString(params.GetOr(NoParams), encode)
  {
    var p := params.GetOr(NoParams);
    var searchParams := new SearchParams();
    if p.fields.Present? {
      searchParams.Append(FieldsKey, p.fields.value);
    }
    if p.localeCode.Present? {
      searchParams.Append(LocaleKey, p.localeCode.value.Tag());
    }
    assert searchParams.list == Pairs(p);
    var queryString := searchParams.ToString(encode);
    q := if queryString != "" then "?" + queryString else "";
  }

  /** A query string read back: the pairs after the leading `?`. */
  function ParseQuery(q: string, decode: Encoder): seq<(string, string)> {
    if q == "" then [] else Parse(q[1..], decode)
  }

  /** Reading a query string back gives exactly the present keys, `fields` first. */
  lemma QueryStringRoundTrip(p: LookupParams, encode: Encoder, decode: Encoder)
    requires Invertible(encode, decode)
    ensures ParseQuery(QueryString(p, encode), decode) == Pairs(p)
  {
    ParseSerialize(Pairs(p), encode, decode);
  }

  /** The query string fixes the locale: read back, its `locale_code` pair holds a tag
      naming exactly the locale that was sent. */
  lemma QueryStringFixesLocale(p: LookupParams, encode: Encoder, decode: Encoder)
    requires Invertible(encode, decode)
    requires p.localeCode.Present?
    ensures var read := ParseQuery(QueryString(p, encode), decode);
      |read| >= 1 && read[|read| - 1].0 == LocaleKey
      && LocaleOfTag(read[|read| - 1].1) == Some(p.localeCode.value)
  {
    QueryStringRoundTrip(p, encode, decode);
    TagRoundTrip(p.localeCode.value);
  }

  /** With both keys present the query string is `?fields=…&locale_code=…`. */
  lemma QueryStringBothKeys(p: LookupParams, encode: Encoder)
    requires p.fields.Present? && p.localeCode.Present?
    ensures QueryString(p, encode) ==
      "?" + encode(FieldsKey) + "=" + encode(p.fields.value)
      + "&" + encode(LocaleKey) + "=" + encode(p.localeCode.value.Tag())
  {
    var list := Pairs(p);
    var first := Entry(list[0].0, list[0].1, encode);
    var second := Entry(list[1].0, list[1].1, encode);
    assert Entries(list, encode) == [first, second];
    assert Join([first, second], '&') == first + "&" + second;
  }

  // ---------------------------------------------------------------- timeouts

  /** JavaScript's `t ?? d` for an optional number. */
  function Nullish(t: Option<int>, d: int): int {
    if t.Some? then t.value else d
  }

  /** JavaScript's `t || d` for an optional number: `undefined` and `0` fall back to `d`. */
  function OrElse(t: Option<int>, d: int): int {
    if t.Some? && t.value != 0 then t.value else d
  }

  /** GET (`??` then `||`) and POST (`||` twice) arrive at the same deadline: the
      per-call timeout when it is defined and non-zero, else the default. */
  lemma DeadlineOfGetAndPost(t: Option<int>, d: int)
    ensures OrElse(Some(Nullish(t, d)), d) == OrElse(t, d)
    ensures OrElse(Some(OrElse(t, d)), d) == OrElse(t, d)
    ensures t == Some(0) ==> OrElse(t, d) == d
  {
  }

  // ---------------------------------------------------------------- requests

  datatype HttpMethod = GET | POST

  /** The request handed to `fetch`: method, URL, headers, the value serialized as the
      body, and the deadline in milliseconds after which it is aborted. */
  datatype HttpRequest = HttpRequest(
    verb: HttpMethod,
    url: string,
    headers: map<string, string>,
    body: Option<Json>,
    deadline: int)

  /** The network: the outcome of sending a request. */
  type Exchange = HttpRequest -> Outcome

  /** The headers of every request: the content type and the user agent always, and
      `x-api-key` with the key exactly when a non-empty key is configured. */
  ghost predicate ExpectedHeaders(h: map<string, string>, apiKey: Option<string>) {
    && ContentTypeHeader in h && h[ContentTypeHeader] == JsonContentType
    && UserAgentHeader in h && h[UserAgentHeader] == UserAgent
    && (ApiKeyHeader in h <==> Truthy(apiKey))
    && (ApiKeyHeader in h ==> h[ApiKeyHeader] == apiKey.value)
    && h.Keys <= {ContentTypeHeader, UserAgentHeader, ApiKeyHeader}
  }

  /** `HttpClient`: a base URL, an optional API key and a default timeout, fixed at construction. */
  class HttpClient {
    const baseUrl: string
    const apiKey: Option<string>
    const defaultTimeout: int

    constructor(baseUrl: string, apiKey: Option<string>, defaultTimeout: Option<int>)
      ensures this.baseUrl == baseUrl && this.apiKey == apiKey
      ensures this.defaultTimeout == defaultTimeout.GetOr(DefaultTimeout)
    {
      this.baseUrl := baseUrl;
      this.apiKey := apiKey;
      this.defaultTimeout := defaultTimeout.GetOr(DefaultTimeout);
    }

    /** The URL for an endpoint: base URL, endpoint, query string, with absent
        parameters standing for `{}`. */
    function Url(endpoint: string, params: Option<LookupParams>, encode: Encoder): (url: string)
      ensures StartsWith(url, baseUrl + endpoint)
      ensures url == baseUrl + endpoint <==> params.None? || (!params.value.fields.Present? && !params.value.localeCode.Present?)
      ensures url != baseUrl + endpoint ==> url[|baseUrl + endpoint|] == '?'
    {
      var prefix := baseUrl + endpoint;
      var q := QueryString(params.GetOr(NoParams), encode);
      assert (prefix + q)[..|prefix|] == prefix;
      assert q != "" ==> (prefix + q)[|prefix|] == q[0];
      prefix + q
    }

    /** What a request for `endpoint` sends: the method, the URL, the headers, the body
        and the deadline of the per-call `timeout`. GET and POST agree on all but the
        method and the body. */
    ghost predicate Prepared(sent: HttpRequest, verb: HttpMethod, endpoint: string, params: Option<LookupParams>,
                             body: Option<Json>, timeout: Option<int>, encode: Encoder)
    {
      && sent.verb == verb
      && sent.url == Url(endpoint, params, encode)
      && ExpectedHeaders(sent.headers, apiKey)
      && sent.body == body
      && sent.deadline == OrElse(timeout, defaultTimeout)
    }

    /** The headers of `request`, built and then extended with the key. */
    method BuildHeaders() returns (headers: map<string, string>)
      ensures ExpectedHeaders(headers, apiKey)
    {
      headers := map[ContentTypeHeader := JsonContentType, UserAgentHeader := UserAgent];
      if Truthy(apiKey) {
        headers := headers[ApiKeyHeader := apiKey.value];
      }
    }

    /** `request`: sends one request and classifies what comes back. */
    method Request(url: string, verb: HttpMethod, body: Option<Json>, timeout: Option<int>, exchange: Exchange)
      returns (sent: HttpRequest, r: Result<Json, APIError>)
      ensures sent.verb == verb && sent.url == url && sent.body == body
      ensures ExpectedHeaders(sent.headers, apiKey)
      ensures sent.deadline == OrElse(timeout, defaultTimeout)
      ensures r == Classify(exchange(sent))
    {
      var headers := BuildHeaders();
      sent := HttpRequest(verb, url, headers, body, OrElse(timeout, defaultTimeout));
      var outcome := exchange(sent);
      r := Classify(outcome);
    }

    /** `get`. */
    method Get(endpoint: string, params: Option<LookupParams>, timeout: Option<int>, encode: Encoder, exchange: Exchange)
      returns (sent: HttpRequest, r: Result<Json, APIError>)
      ensures Prepared(sent, GET, endpoint, params, None, timeout, encode)
      ensures r == Classify(exchange(sent))
    {
      var query := BuildQueryString(params, encode);
      var url := baseUrl + endpoint + query;
      sent, r := Request(url, GET, None, Some(Nullish(timeout, defaultTimeout)), exchange);
      DeadlineOfGetAndPost(timeout, defaultTimeout);
    }

    /** `post`, with the value to serialize as the body. */
    method Post(endpoint: string, body: Json, params: Option<LookupParams>, timeout: Option<int>, encode: Encoder, exchange: Exchange)
      returns (sent: HttpRequest, r: Result<Json, APIError>)
      ensures Prepared(sent, POST, endpoint, params, Some(body), timeout, encode)
      ensures r == Classify(exchange(sent))
    {
      var query := BuildQueryString(Some(params.GetOr(NoParams)), encode);
      var url := baseUrl + endpoint + query;
      sent, r := Request(url, POST, Some(body), Some(OrElse(timeout, defaultTimeout)), exchange);
      DeadlineOfGetAndPost(timeout, defaultTimeout);
    }
  }
}

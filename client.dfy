/** `IPSonarClient`: input validation, parameter merging and endpoint selection for the
    three lookups, each delegating one request to the transport. */
module Client {
  import opened Wrappers
  import opened Text
  import opened Types
  import opened FormUrlEncoded
  import opened Http

  const DefaultBaseUrl := "https://api.ip-sonar.com"
  const MaxBatchSize := 100
  const MyIpEndpoint := "/v1/myip"
  const BatchEndpoint := "/v1/batch"

  /** The invalid arguments the client rejects before any request is built. */
  datatype InputError =
    | MissingIp        // `lookupIP` with an empty address
    | MissingIps       // `batchLookup` with an empty list
    | TooManyIps       // `batchLookup` with more than 100 addresses
    | EmptyIpAt(index: nat)
  {
    /** The message of the `Error` thrown. */
    function Message(): string {
      match this
      case MissingIp => "IP address is required and must be a string"
      case MissingIps => "IPs array is required and must not be empty"
      case TooManyIps => "Maximum of 100 IP addresses allowed per batch request"
      case EmptyIpAt(i) => "IP at index " + NatToString(i) + " must be a non-empty string"
    }
  }

  /** The message of an element error names its index: distinct indices give distinct messages. */
  lemma EmptyIpMessageNamesIndex(i: nat, j: nat)
    requires EmptyIpAt(i).Message() == EmptyIpAt(j).Message()
    ensures i == j
  {
    var prefix := "IP at index ";
    var suffix := " must be a non-empty string";
    var mi, mj := EmptyIpAt(i).Message(), EmptyIpAt(j).Message();
    var si, sj := NatToString(i), NatToString(j);
    assert mi == prefix + si + suffix && mj == prefix + sj + suffix;
    assert |si| == |sj|;
    assert si == mi[|prefix|..|prefix| + |si|];
    assert sj == mj[|prefix|..|prefix| + |sj|];
    NatToStringInjective(i, j);
  }

  /** Why a lookup failed: rejected input, or a failed request. */
  datatype ClientError = InvalidInput(input: InputError) | RequestFailed(api: APIError)

  /** A transport result seen through the client. */
  function FromTransport(r: Result<Json, APIError>): Result<Json, ClientError> {
    match r
    case Success(v) => Success(v)
    case Failure(e) => Failure(RequestFailed(e))
  }

  /** A batch the client sends: 1 to 100 addresses, none empty. */
  predicate ValidBatch(ips: seq<string>) {
    1 <= |ips| <= MaxBatchSize && forall i :: 0 <= i < |ips| ==> ips[i] != ""
  }

  /** The error `batchLookup` reports: the checks run in order (empty list, size,
      elements) and an element error names the lowest index holding an empty string. */
  ghost predicate IsBatchError(ips: seq<string>, e: InputError) {
    if |ips| == 0 then e == MissingIps
    else if |ips| > MaxBatchSize then e == TooManyIps
    else && e.EmptyIpAt? && e.index < |ips| && ips[e.index] == ""
         && forall j :: 0 <= j < e.index ==> ips[j] != ""
  }

  /** A batch has at most one such error. */
  lemma BatchErrorUnique(ips: seq<string>, e1: InputError, e2: InputError)
    requires IsBatchError(ips, e1) && IsBatchError(ips, e2)
    ensures e1 == e2
  {
  }

  /** The validation at the head of `batchLookup`, walking the list until the first
      empty element. */
  method ValidateBatch(ips: seq<string>) returns (err: Option<InputError>)
    ensures err.None? <==> ValidBatch(ips)
    ensures err.Some? ==> IsBatchError(ips, err.value)
  {
    if |ips| == 0 {
      return Some(MissingIps);
    }
    if |ips| > MaxBatchSize {
      return Some(TooManyIps);
    }
    var i := 0;
    while i < |ips|
      invariant 0 <= i <= |ips|
      invariant forall j :: 0 <= j < i ==> ips[j] != ""
    {
      if ips[i] == "" {
        return Some(EmptyIpAt(i));
      }
      i := i + 1;
    }
    return None;
  }

  /** A list of strings as a JSON array, element by element. */
  function StringArray(ips: seq<string>): (items: seq<Json>)
    ensures |items| == |ips|
    ensures forall i :: 0 <= i < |ips| ==> items[i] == JString(ips[i])
  {
    if ips == [] then [] else [JString(ips[0])] + StringArray(ips[1..])
  }

  /** The batch request body `{data: ips}`: one key holding the same addresses, in the
      same order. */
  function BatchRequestBody(ips: seq<string>): (body: Json)
    ensures body.JObject? && body.members.Keys == {"data"}
    ensures body.members["data"].JArray? && |body.members["data"].elems| == |ips|
    ensures forall i :: 0 <= i < |ips| ==> body.members["data"].elems[i] == JString(ips[i])
  {
    JObject(map["data" := JArray(StringArray(ips))])
  }

  /** `IPSonarClient`: its transport and default parameters, fixed at construction. */
  class IPSonarClient {
    const http: HttpClient
    const defaultParams: Option<LookupParams>

    /** Missing configuration entries take their defaults: the public base URL and a
        timeout of 10000 ms (an explicit 0 is kept). */
    constructor(config: IPSonarConfig)
      ensures http.baseUrl == config.baseUrl.GetOr(DefaultBaseUrl)
      ensures http.apiKey == config.apiKey
      ensures http.defaultTimeout == config.timeout.GetOr(DefaultTimeout)
      ensures defaultParams == config.defaultParams
    {
      var baseUrl := config.baseUrl.GetOr(DefaultBaseUrl);
      var timeout := config.timeout.GetOr(DefaultTimeout);
      http := new HttpClient(baseUrl, config.apiKey, Some(timeout));
      defaultParams := config.defaultParams;
    }

    /** `mergeParams`: `undefined` when neither side exists, else `{...defaults, ...request}`,
        each key taken from the per-call parameters when they hold it. */
    function MergeParams(requestParams: Option<LookupParams>): (merged: Option<LookupParams>)
      ensures merged.None? <==> defaultParams.None? && requestParams.None?
      ensures merged.Some? ==>
        FieldsOf(merged) == (if FieldsOf(requestParams).Absent? then FieldsOf(defaultParams) else FieldsOf(requestParams))
      ensures merged.Some? ==>
        LocaleOf(merged) == (if LocaleOf(requestParams).Absent? then LocaleOf(defaultParams) else LocaleOf(requestParams))
      ensures requestParams.None? ==> merged == defaultParams
      ensures defaultParams.None? ==> merged == requestParams
    {
      if defaultParams.None? && requestParams.None? then None
      else
        var d := defaultParams.GetOr(NoParams);
        var c := requestParams.GetOr(NoParams);
        Some(LookupParams(
          if c.fields.Absent? then d.fields else c.fields,
          if c.localeCode.Absent? then d.localeCode else c.localeCode))
    }

    /** `lookupMyIP`: no validation, a GET of `/v1/myip`. */
    method LookupMyIP(options: RequestOptions, encode: Encoder, exchange: Exchange)
      returns (sent: HttpRequest, r: Result<Json, ClientError>)
      ensures http.Prepared(sent, GET, MyIpEndpoint, MergeParams(options.params), None, options.timeout, encode)
      ensures r == FromTransport(Classify(exchange(sent)))
    {
      var params := MergeParams(options.params);
      var result;
      sent, result := http.Get(MyIpEndpoint, params, options.timeout, encode, exchange);
      r := FromTransport(result);
    }

    /** `lookupIP`: an empty address fails before any request is built; otherwise a GET
        of `/v1/` followed by the component-encoded address. */
    method LookupIP(ip: string, options: RequestOptions, encodeComponent: Encoder, encode: Encoder, exchange: Exchange)
      returns (sent: Option<HttpRequest>, r: Result<Json, ClientError>)
      ensures sent.None? <==> ip == ""
      ensures ip == "" ==> r == Failure(InvalidInput(MissingIp))
      ensures sent.Some? ==>
        && http.Prepared(sent.value, GET, "/v1/" + encodeComponent(ip), MergeParams(options.params), None, options.timeout, encode)
        && r == FromTransport(Classify(exchange(sent.value)))
    {
      if ip == "" {
        return None, Failure(InvalidInput(MissingIp));
      }
      var params := MergeParams(options.params);
      var request, result := http.Get("/v1/" + encodeComponent(ip), params, options.timeout, encode, exchange);
      sent, r := Some(request), FromTransport(result);
    }

    /** `batchLookup`: a list that fails validation is rejected before any request is
        built; otherwise one POST of `{data: ips}` to `/v1/batch`. */
    method BatchLookup(ips: seq<string>, options: RequestOptions, encode: Encoder, exchange: Exchange)
      returns (sent: Option<HttpRequest>, r: Result<Json, ClientError>)
      ensures sent.None? <==> !ValidBatch(ips)
      ensures sent.None? ==> r.Failure? && r.error.InvalidInput? && IsBatchError(ips, r.error.input)
      ensures sent.Some? ==>
        && http.Prepared(sent.value, POST, BatchEndpoint, MergeParams(options.params), Some(BatchRequestBody(ips)), options.timeout, encode)
        && r == FromTransport(Classify(exchange(sent.value)))
    {
      var err := ValidateBatch(ips);
      if err.Some? {
        return None, Failure(InvalidInput(err.value));
      }
      var requestBody := BatchRequestBody(ips);
      var params := MergeParams(options.params);
      var request, result := http.Post(BatchEndpoint, requestBody, params, options.timeout, encode, exchange);
      sent, r := Some(request), FromTransport(result);
    }
  }
}

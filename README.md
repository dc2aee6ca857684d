# ip-sonar-js in Dafny

A model of the request-construction and outcome-classification layer of the
ip-sonar-js client for the IP-Sonar geolocation API. The client offers three
lookups: the caller's own address, one address, and a batch of up to 100
addresses. Each lookup validates its input, merges default and per-call query
parameters, picks an endpoint, and hands one request to the transport
(`HttpClient`). The transport builds the URL, the headers and the deadline, and
turns what the network answers into a decoded JSON value or an `APIError`.

The network is a parameter, `exchange: HttpRequest -> Outcome`. Every lookup
method returns the `HttpRequest` it sent (`None` when validation rejected the
input first) together with its result. Each contract then says exactly what
went out on the wire and how the answer was classified.

Modules, one per source file or platform facility:

- `Wrappers` (wrappers.dfy): `Option` and `Result`.
- `Text` (text.dfy): decimal rendering of numbers (`${n}`), `includes`, and
  split/join on one character, with the round-trip lemmas the parsers need.
- `FormUrlEncoded` (form_urlencoded.dfy): the `URLSearchParams` object as a
  class with `Append`, the application/x-www-form-urlencoded serializer of
  section 5.2 of the WHATWG URL Standard, and an inverse parser. The
  percent-encoding of names and values is an uninterpreted `Encoder` parameter.
- `Types` (types.dfy): src/types.ts. It holds `LocaleCode` (8 tags),
  `LookupParams`, `IPSonarConfig`, `RequestOptions`, a JSON value type and
  `APIError`.
- `Http` (http.dfy): src/http.ts. It holds `createAPIError`, `buildQueryString`,
  the timeout expressions, the headers, and the `try`/`catch` classification of
  `request`, plus `HttpClient` with `Get`, `Post` and `Request`.
- `Client` (client.dfy): src/client.ts. It holds `IPSonarClient` with its
  constructor defaults, `mergeParams`, `lookupMyIP`, `lookupIP` and
  `batchLookup`, plus the batch validation loop.

Modelling choices that follow the code rather than a looser reading of it:

- A lookup-parameter key has three states: `Absent`, `Undefined`, or
  `Present(v)`. The spread `{...defaults, ...request}` copies an own property
  even when it holds `undefined`. Such a key therefore overrides a default, and
  `buildQueryString` then omits it because its test is `!== undefined`. A key
  holding `""` is `Present("")` and is still emitted.
- An explicit per-call timeout of `0` falls back to the client default, because
  `request` applies `||` (src/http.ts:100). A configured default timeout of `0`
  is kept, because the constructor default only replaces `undefined`.
- `response.ok` is derived from the status (200-299).
- The API message is used only when it is a non-empty string, because of the
  `apiMessage ||` / `if (apiMessage)` tests.
- Errors do not have an explicit kind. As in the code, an error with a status
  came from a response, and one without a status came from the platform or from
  validation. Validation errors are plain `Error`s, modelled as `InputError`
  with the exact thrown messages.

## Model

| member | source | states |
|---|---|---|
| `Types.LocaleOfTag` | src/types.ts:9 | a wire tag names at most one locale, and the locale found has that tag |
| `Types.TagRoundTrip` | src/types.ts:9 | every locale's wire tag reads back as that locale, so the eight tags are distinct |
| `Http.CreateAPIError` | src/http.ts:6-16 | the error keeps the message, the status and the body as given; `apiMessage` is set iff the given one is non-empty, and then equals it |
| `Http.NonOkError` | src/http.ts:112-139 | a non-OK response's error carries its status; the message is the body's non-empty string `message`, else `HTTP <status>: <statusText>`; `apiMessage` is set only in the first case; the body is the decoded JSON, else the text, else null |
| `Http.TryBlock` | src/http.ts:102-148 | the `try` succeeds exactly on an OK response whose body decodes, with that value; everything it raises itself carries a status; platform exceptions pass through to the `catch` |
| `Http.CatchBlock` | src/http.ts:149-168 | an error with a status is passed on unchanged; a platform exception becomes an error without status, body or API message |
| `Http.Classify` | src/http.ts:102-168 | the full classification: success iff OK and decodable; non-OK gives the `NonOkError` record; OK but undecodable gives "Failed to parse response as JSON" with the status and no body; a `TypeError` mentioning `fetch` gives the network error; else an `AbortError` gives "Request timeout"; else "Request failed: " plus the message; none of the last three has a status |
| `Http.ResponseErrorsPassThrough` | src/http.ts:161-164 | an error raised while handling a response is never rewrapped by the `catch` |
| `Http.Pairs` | src/http.ts:21-30 | the appended pairs are empty iff neither key is present; at most two; each key at most once; `fields` comes first and `locale_code` last; each carries the key's value or locale tag |
| `Http.QueryString` | src/http.ts:21-34 | the query string is `""` iff neither key is present, and otherwise is `?` followed by the serialized pairs |
| `Http.BuildQueryString` | src/http.ts:21-34 | appending step by step to a fresh `URLSearchParams` yields `QueryString` of the parameters, with absent parameters taken as `{}` |
| `Http.QueryStringRoundTrip` | src/http.ts:22-33 | for an encoding that never writes `&` or `=` and is inverted by `decode`, parsing the query string back gives exactly the present keys, in order |
| `Http.QueryStringFixesLocale` | src/http.ts:28-33 | when a locale is present, the query string read back ends with the `locale_code` pair, and its tag names exactly the locale that was sent |
| `Http.QueryStringBothKeys` | src/http.ts:24-33 | with both keys present the query string is `?fields=<f>&locale_code=<tag>` |
| `Http.DeadlineOfGetAndPost` | src/http.ts:58-100 | GET (nullish `??`, then logical or) and POST (logical or, twice) reach the same deadline: the per-call timeout when defined and non-zero, else the default; an explicit 0 gives the default |
| `Http.HttpClient.constructor` | src/http.ts:40-44 | base URL and key as given; the default timeout is 10000 when none is given |
| `Http.HttpClient.Url` | src/http.ts:54 | the URL is base URL, endpoint and query string; it ends right after the endpoint iff the parameters are absent or present but empty, and otherwise continues with `?` |
| `Http.HttpClient.BuildHeaders` | src/http.ts:87-96 | `Content-Type: application/json` and `User-Agent: ip-sonar-js/1.0.0` always; `x-api-key` iff a non-empty key is configured, holding that key; no other header |
| `Http.HttpClient.Request` | src/http.ts:83-109 | the request sent has the given method, URL and body, the expected headers, and the deadline of the timeout, or the default when it is undefined or 0; the result is the classification of the network's answer to it |
| `Http.HttpClient.Get` | src/http.ts:49-60 | sends a GET of `baseUrl + endpoint + query string` with no body and the effective deadline, and returns the classified outcome |
| `Http.HttpClient.Post` | src/http.ts:65-78 | sends a POST of the same URL as GET would, with the given body and the same effective deadline, and returns the classified outcome |
| `FormUrlEncoded.SearchParams.constructor` | src/http.ts:22 | a new `URLSearchParams` holds no pairs |
| `FormUrlEncoded.SearchParams.Append` | src/http.ts:25 | appending adds the pair at the end of the list and changes nothing else |
| `FormUrlEncoded.Serialize` | src/http.ts:32-33 | the serialization is empty iff the list is, which is what makes `queryString ? … : ''` test for "no key appended" |
| `FormUrlEncoded.ParseSerialize` | src/http.ts:32 | reading a serialization back through an inverse encoding gives the same pairs in the same order |
| `Text.ContainsIsIncludes` | src/http.ts:153 | the `includes` test holds exactly when the substring occurs at some position of the message |
| `Text.NatToString` | src/client.ts:116 | a number renders as a non-empty string of decimal digits without a leading zero |
| `Text.ParseNatToString` | src/http.ts:132 | the decimal text of a number (as in `HTTP ${status}` and `index ${index}`) reads back as that number |
| `Client.IPSonarClient.constructor` | src/client.ts:25-35 | missing base URL defaults to `https://api.ip-sonar.com` and missing timeout to 10000; key and default parameters are kept as given |
| `Client.IPSonarClient.MergeParams` | src/client.ts:134-143 | none iff both sides are absent (an empty object counts as present); each key comes from the per-call parameters when they hold it, else from the defaults; merge(d, none) = d and merge(none, c) = c |
| `Client.IPSonarClient.LookupMyIP` | src/client.ts:50-58 | no validation; always GETs `/v1/myip` with the merged parameters and the per-call timeout |
| `Client.IPSonarClient.LookupIP` | src/client.ts:74-86 | an empty address fails with the "IP address is required" error and no request; any other address GETs `/v1/` plus its component encoding |
| `Client.ValidateBatch` | src/client.ts:105-118 | a batch is accepted iff 1 ≤ length ≤ 100 and no element is empty; otherwise the error is the first failing check in the order empty, size, elements, and an element error names the lowest empty index |
| `Client.BatchErrorUnique` | src/client.ts:105-118 | the reported batch error is determined by the list |
| `Client.EmptyIpMessageNamesIndex` | src/client.ts:116 | the element error's message identifies the index it reports |
| `Client.BatchRequestBody` | src/client.ts:120 | the body `{data: ips}` has the single key `data`, holding the same addresses in the same order, unmodified |
| `Client.IPSonarClient.BatchLookup` | src/client.ts:104-129 | an invalid batch fails with its batch error and no request; a valid one POSTs `{data: ips}` to `/v1/batch` with the merged parameters |

## Left out

- `fetch`, `AbortController`, `setTimeout` and `clearTimeout` (src/http.ts:99-109, 150) are left out. The network is the `exchange` parameter and the deadline is a field of the request it receives. An abort shows up as the outcome `Threw` with name `AbortError`. Disarming the timer on every path is not modelled.
- `JSON.stringify`, `response.json()` and `response.text()` are left out. A response carries its body decoded as JSON or `None`, and its text or `None`. A request body is the JSON value handed to `JSON.stringify`. Under the Fetch Standard a failed `response.json()` has already consumed the body, so `response.text()` would also fail and the error body would be null. The model leaves that to the `text` field of the outcome.
- Percent-encoding (`URLSearchParams` serialization and `encodeURIComponent`) is left out: both are uninterpreted `Encoder` parameters. The round-trip lemma assumes an encoding that never writes `&` or `=` and has an inverse. The form-urlencoded percent-encode set guarantees the first; the second is assumed.
- `encodeURIComponent` throws `URIError` on a lone surrogate. Dafny strings hold only Unicode scalar values, so that case cannot be expressed.
- The `typeof ip !== 'string'` and `Array.isArray` checks (src/client.ts:75, 105, 115) are left out because static types exclude those inputs. Only the emptiness rules are modelled.
- The spread of caller-supplied `fetchOptions.headers` (src/http.ts:90) is left out, because `get` and `post` never pass headers.
- Http.NonOkError: a `message` member that is not a string is treated as absent. The source would use a truthy non-string value as the error message, stringified, and as `apiMessage`.
- Http.CatchBlock: thrown values are taken to be `Error` instances, and exceptions raised by `fetch` never carry a `status` property (`fetch` rejects only with a `TypeError` or the abort exception). A non-`Error` thrown value is not modelled. For such a value the source behaves in one of three ways. It rethrows the value unchanged when it has a `status`. It wraps the value's `message` property otherwise, which gives "Request failed: undefined" when there is none. It fails with a `TypeError` at src/http.ts:162 when the value is `null` or `undefined`.
- Timeouts and JSON numbers are integers. NaN, fractional and floating-point values are not modelled, and neither are the latitude/longitude and other `IPGeolocation` fields. Responses are returned as opaque JSON values, exactly as the source returns them unvalidated.
- Order preservation of batch responses is left out: it is a promise of the remote API, and nothing local enforces it.
- Promises and `async` are left out. A rejected promise is a `Failure` result. A synchronous throw inside an `async` method and a rejection look the same to the caller.
- `createClient` (src/client.ts:162-164) only calls the constructor and is covered by it. src/index.ts (re-exports), src/version.ts (a build-time constant that src/http.ts:89 does not use), examples/example.ts and rollup.config.js are not part of this model.

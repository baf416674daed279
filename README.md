# httpbin_sdk request building and response checking, in Dafny

This project models the pure core of the `httpbin_sdk` Python client: everything
that happens around one HTTP call except the call itself.

- **Header construction.** `_get_headers` and its twin
  `_build_urllib_request_headers` start from a form-urlencoded `Content-Type`.
  They add a `User-Agent` and a bearer `Authorization`, merge client headers and
  per-request headers, force the JSON content type for a JSON body, and drop
  `Content-Type` when files are attached. Both are methods that update a local map
  step by step, in the source's order. Each is proved against a key-by-key
  precedence predicate (`HeadersResolved`, `UrllibHeadersResolved`). That predicate
  lists, for each header, its sources from the winning one down (`FirstSupplier`).
  The two builders place the token step differently, and `TokenStepOrderDiffers`
  proves where that shows.
- **Request arguments.** `_build_req_args` checks the verb against the body. It
  strips `None` values from data, files and params, and merges default parameters
  "only if absent". It then extracts an inline `token` (a JSON token beats a params
  token, which beats the client's) and builds the headers. The caller's `json` dict
  is a `Py.Dict` object that the method changes in place, as the source does. The
  caller's `data`, `files` and `params` objects are only read.
- **Response check.** `Response.validate` accepts a response only when the status is
  200, the body is non-empty, and the body is either bytes or a mapping whose `ok` is
  truthy.
- **Small helpers.** These are the non-JSON body preview, the `?`/`&` query append,
  debug redaction of `Authorization`, the `(bytes)` replacement, the `all_params`
  union and `token or self.token`.

Modules: `Py` (Python values, truthiness, `str()`, `str.strip`, a mutable `dict`),
`Errors` (the outcomes), `InternalUtils` (`httpbin_sdk/internal_utils.py`),
`Responses` (`httpbin_sdk/response.py`), `Client` (`httpbin_sdk/client.py`).

Parameters stand in for the calls the model cannot see: `get_user_agent()`
(`userAgent`), `urljoin`, `urlencode`, `json.loads` (`parseJson`, returning a
mapping or nothing) and the transport's reply (`reply`).

Behaviours of the code that are easy to misread, which the model keeps:

- `api_call` runs `headers.update(self.headers)` (`client.py:87`), so the
  client's headers win over the caller's on every key both have.
- Header keys are compared case-sensitively everywhere except in the debug
  redaction: `_get_headers` looks up `Content-Type` and `Authorization` by
  their exact spelling.
- The JSON payload gets the default parameters but is not stripped of `None`
  values (`internal_utils.py:114-115`).
- Only the client headers decide whether a `User-Agent` is generated
  (`internal_utils.py:53-54`). A per-request `User-Agent` still wins, because
  it is merged later.

Source defects, and what the model does about them:

- `api_call` passes `http_method=` (`client.py:90`), but the parameter is called
  `http_verb`. `ApiCallAsWritten` shows the TypeError. `ApiCall` passes the verb.
- `get_user_agent` uses `sys` without importing it (`internal_utils.py:20`).
  `_build_req_args` uses the undefined name `ssl` (`internal_utils.py:134`).
  `BuildReqArgsAsWritten` shows the NameErrors. `BuildReqArgs` takes the user
  agent as a parameter and leaves `ssl` out.
- `has_json=json is not None` (`client.py:174`) tests the imported `json` module.
  `UrllibRequestHeadersAsWritten` shows the result. `UrllibApiCall` tests
  `json_body`.
- `validate` raises `Exception(message=..., response=...)` (`response.py:25`),
  which is itself a TypeError. `ValidateAsWritten` shows it. `Validate` returns an
  API error that carries the URL.
- `_build_req_args` passes one dict as both `headers` and
  `request_specific_headers` (`internal_utils.py:123-128`). The model keeps this.
  `RequestHeadersTwiceSameAsOnce` proves that the second merge changes nothing.
- `_urllib_api_call` builds `Response` with `client`, `http_verb` and `req_args`
  (`client.py:206-214`). The dataclass does not declare those fields, so as
  written Python raises a TypeError (an unexpected keyword argument) there, and
  every call that gets past the body decoding fails before `validate` runs. The
  model builds the record from its four declared fields only, so the `Validate`
  result of `UrllibApiCall` is the corrected path.
- `client.py:8` imports `errors as err`, an absolute import of a top-level
  `errors` module, where `internal_utils.py:7` uses the package-relative
  `from .errors`. Unless `httpbin_sdk/` itself is on the import path, that
  import fails and `err.HttpBinApiError` (`client.py:197`) never resolves. The
  non-JSON branch of `UrllibApiCall` takes `err` to be `httpbin_sdk/errors.py`.

## Model

| member | source | states |
|---|---|---|
| InternalUtils.GetHeaders | httpbin_sdk/internal_utils.py:28-75 | With files, `Content-Type` is absent. With JSON and no files, it is `application/json;charset=utf-8`. Otherwise it is the request's, else the client's, else form-urlencoded. `Authorization` is the request's, else the client's, else `Bearer <token>` when the token is truthy. `User-Agent` is the request's, else the client's, else the generated one. Every other key is the request's, else the client's. |
| InternalUtils.HeadersResolvedUnique | httpbin_sdk/internal_utils.py:50-75 | The precedence rules determine the header map completely. |
| InternalUtils.RequestHeadersTwiceSameAsOnce | httpbin_sdk/internal_utils.py:123-128 | Passing the same dict as client and per-request headers gives the same headers as passing it once. |
| InternalUtils.DropNone | httpbin_sdk/internal_utils.py:103-112 | Exactly the entries whose value is not `None` are kept, with their values. |
| InternalUtils.WithDefaults | httpbin_sdk/internal_utils.py:78-81 | The key set is the union of target and defaults. Existing keys keep their values. Missing keys get the default. |
| InternalUtils.WithDefaultsIdempotent | httpbin_sdk/internal_utils.py:78-81 | Merging the defaults a second time changes nothing. |
| InternalUtils.SetDefaultParams | httpbin_sdk/internal_utils.py:78-81 | The in-place loop leaves the target equal to WithDefaults of its old entries. |
| InternalUtils.WithoutToken | httpbin_sdk/internal_utils.py:117-121 | Popping `token` removes exactly that key and keeps every other entry. |
| InternalUtils.BuildReqArgs | httpbin_sdk/internal_utils.py:84-138 | It fails with the RequestError exactly when there is a JSON body and the verb is not POST, and then `json` is untouched. Otherwise data and params are None-stripped and defaulted, and files are None-stripped. `json` is defaulted in place. `token` is popped from params and json. The effective token is the JSON one, else the params one, else the client's. The headers meet the `_get_headers` precedence. |
| InternalUtils.BuildReqArgsAsWritten | httpbin_sdk/internal_utils.py:122-137 | The code as written never succeeds. It raises the verb error, or a NameError for `sys` (no User-Agent) or for `ssl`, after `json` has been changed. |
| InternalUtils.CarriageReturnsToNewlines | httpbin_sdk/internal_utils.py:142 | Every `\r` becomes `\n` and nothing else changes. |
| InternalUtils.SplitLines | httpbin_sdk/internal_utils.py:142 | The pieces contain no newline, and joining them with newlines gives the input back. |
| InternalUtils.CollapsedBodyIsOneLine | httpbin_sdk/internal_utils.py:142 | The collapsed body contains no `\n` and no `\r`. |
| InternalUtils.CollapseIdempotent | httpbin_sdk/internal_utils.py:142 | Collapsing a collapsed body changes nothing. |
| InternalUtils.PreviewBounds | httpbin_sdk/internal_utils.py:142-144 | The preview has no line breaks. It equals the collapsed body when that has at most 100 characters. Otherwise it is the first 100 characters followed by `...`. |
| InternalUtils.ShortBodyQuotedInFull | httpbin_sdk/internal_utils.py:141-146 | A single-line body of at most 100 characters without outer whitespace appears unchanged after the prefix. |
| InternalUtils.UnexpectedBodyErrorMessage | httpbin_sdk/internal_utils.py:141-146 | The message is `Received a response in a non-JSON format: ` followed by the preview, so it is at most 145 characters. |
| Responses.Validate | httpbin_sdk/response.py:22-25 | It succeeds exactly when the status is 200, the data is non-empty, and the data is bytes or has a truthy `ok`. Success returns the same record. Failure is an API error that carries `api_url`. |
| Responses.ValidateAsWritten | httpbin_sdk/response.py:24-25 | As written, every failure is the TypeError from `Exception(message=..., response=...)`. |
| Responses.AsWrittenLosesTheUrl | httpbin_sdk/response.py:22-25 | Both versions agree on success. On failure only the corrected one raises a library error that names the URL. |
| Responses.Non200Fails | httpbin_sdk/response.py:22-25 | Any status other than 200 fails, whatever the data. |
| Responses.EmptyBodyFails | httpbin_sdk/response.py:22 | An empty mapping, empty bytes or a missing body fails. |
| Responses.FalsyOkFails | httpbin_sdk/response.py:22 | A mapping with no `ok`, or with a falsy `ok`, fails. |
| Responses.NonEmptyBytesSucceed | httpbin_sdk/response.py:22-23 | Non-empty bytes with status 200 succeed and return the same record. |
| Responses.TruthyOkSucceeds | httpbin_sdk/response.py:22-23 | Status 200 with a mapping whose `ok` is truthy succeeds and returns the same record. |
| Client.NewClient | httpbin_sdk/client.py:16-37 | The token is stored stripped of surrounding whitespace, and None stays None. Missing or empty headers become `{}`. There are no default parameters. The base URL defaults to `https://www.httpbin.com/` and the timeout to 30. |
| Client.StrippedTokenKept | httpbin_sdk/client.py:16-37 | `BaseClient(token)` with an already stripped token and every other argument defaulted stores the token as given, the default base URL and timeout, no proxy, no headers and no default parameters. |
| Client.MergeCallHeaders | httpbin_sdk/client.py:86-87 | The result is the caller's headers overridden by the client's. A non-empty caller dict is updated in place. A missing or empty one is replaced by a fresh dict and left unchanged. |
| Client.ApiCall | httpbin_sdk/client.py:85-100 | The URL is `urljoin(base_url, api_method)`. The arguments are those of BuildReqArgs over the merged headers, with the client's token, default parameters and proxy. A non-empty caller headers dict ends as its old entries overridden by the client headers; an empty one stays empty. The caller's json dict ends defaulted and without `token`, and is the json the arguments hold; on the verb error it is untouched. |
| Client.ApiCallAsWritten | httpbin_sdk/client.py:86-91 | As written, every call is a TypeError (`http_method` keyword) raised after a non-empty caller headers dict has been merged in place; an empty one stays empty and json is untouched. |
| Client.BuildUrllibRequestHeaders | httpbin_sdk/client.py:104-118 | With files, `Content-Type` is absent. With JSON and no files, it is the JSON type. `Authorization` is from the additional headers, else `Bearer <token>` for a non-empty token, else the client's. Every other key is the additional header's, else the client's. |
| Client.TokenStepOrderDiffers | httpbin_sdk/client.py:107-112 | With a client `Authorization` and a token, `_get_headers` keeps the client's value and `_build_urllib_request_headers` sends the token. |
| Client.AppendQuery | httpbin_sdk/client.py:185-187 | Empty query parameters leave the URL unchanged. Otherwise the result is the URL, then `&` if it already has `?` or `?` if not, then the encoded query. |
| Client.AppendQueryKeepsPath | httpbin_sdk/client.py:185-187 | The part before the first `?` never changes, and a URL with a query always contains `?`. |
| Client.RedactHeaders | httpbin_sdk/client.py:157-160 | The key set is the same. Keys that lower-case to `authorization` map to `(redacted)`. Every other value is unchanged. |
| Client.RedactIdempotent | httpbin_sdk/client.py:157-160 | Redacting twice is redacting once. |
| Client.AuthorizationSpellings | httpbin_sdk/client.py:158 | Every casing of `Authorization` is redacted. A padded name or `Proxy-Authorization` is not. |
| Client.ConvertParams | httpbin_sdk/client.py:149-155 | A missing or empty argument gives `{}`. Otherwise the keys are the same, bytes values become `(bytes)`, and every other value is kept. |
| Client.ConvertParamsHidesBytes | httpbin_sdk/client.py:149-155 | No bytes value remains, and converting twice is converting once. |
| Client.EitherToken | httpbin_sdk/client.py:173 | A non-empty call token is used. Otherwise the client's token is used. |
| Client.UrllibApiCall | httpbin_sdk/client.py:120-214 | The URL sent has the query appended. The headers meet the urllib precedence for the given JSON body and files, and the body fields are passed through. `all_params` is body params overridden by query params. A text body that does not parse gives the non-JSON API error. Otherwise the result is Validate of the decoded response. |
| Client.UrllibRequestHeadersAsWritten | httpbin_sdk/client.py:172-177 | As written, a request without files is always labelled `application/json;charset=utf-8`. |

## Findings

| source | as written | input that shows it | evidently intended | confidence | as-written member | corrected member |
|---|---|---|---|---|---|---|
| httpbin_sdk/client.py:174 | `has_json=json is not None` tests the imported `json` module, which is never None | a call with `json_body=None` and `files=None`: the form body is sent as `application/json;charset=utf-8` | `has_json=json_body is not None` | not executed | Client.UrllibRequestHeadersAsWritten | Client.UrllibApiCall |
| httpbin_sdk/client.py:90 | `_build_req_args(http_method=...)`, but the parameter is `http_verb` | any `api_call`: TypeError about an unexpected keyword argument | `http_verb=http_method` | not executed | Client.ApiCallAsWritten | Client.ApiCall |
| httpbin_sdk/internal_utils.py:134 | `"ssl": ssl` with `ssl` undefined | a POST whose headers have a `User-Agent`: NameError for `ssl` | no `ssl` entry, as in the client where `ssl` is commented out | not executed | InternalUtils.BuildReqArgsAsWritten | InternalUtils.BuildReqArgs |
| httpbin_sdk/internal_utils.py:20 | `sys.version_info` without `import sys` | a POST whose headers lack `User-Agent`: NameError for `sys` | `import sys` | not executed | InternalUtils.BuildReqArgsAsWritten | InternalUtils.GetHeaders |
| httpbin_sdk/response.py:25 | `raise Exception(message=msg, response=self)` | a response with status 500: TypeError, and the URL is lost | `raise HttpBinApiError(msg, self)` | not executed | Responses.ValidateAsWritten | Responses.Validate |

## Left out

- Network I/O: `_sync_send` and `_perform_urllib_http_request` are not defined in the source. `ApiCall` stops at the arguments it would send. `UrllibApiCall` takes the transport's reply as a parameter.
- `urljoin`, `urlencode`, `json.loads` and `get_user_agent` are opaque parameters. `json.loads` is modelled as returning a JSON object or failing. A JSON document that is not an object (a list, a number) is not modelled.
- Logging: only the redaction and bytes-replacement maps are modelled, not the log record or the logger-level check.
- `httpbin_sdk/errors.py` is represented by the `Errors.Error` datatype. Its `str()` formatting is not modelled.
- Client.UrllibApiCall: the error for a body that is not JSON carries the URL, where the source's `HttpBinApiError` carries the transport's raw response.
- Dictionary insertion order: maps are unordered. Order never decides which value a key ends up with, but it does decide the log text, the order headers go out in, and the order of the pairs `urlencode` writes into the query string (`client.py:186`). `urlencode` is a parameter that receives only the map's contents, so the order of the query pairs, and with it the exact URL sent and stored as `api_url`, is not captured.
- Python values other than None, bool, int, str and bytes are represented by their `str()` text and truthiness (`Py.Value.Other`).
- Non-dict payloads: `_build_req_args` and `convert_params` declare `dict` arguments, and the model takes dicts or None. The branches taken when an argument is some other object are not modelled.
- `timeout` and `proxy` are carried but have no effect here, because they only matter to the transport.
- The `(client, http_verb, req_args)` arguments to `Response(...)` at `client.py:206-214` are left out. As written they make the constructor raise a TypeError; the record here has its four declared fields, and no member models that TypeError.

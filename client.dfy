/** The client facade (httpbin_sdk/client.py): construction, the header
    merge and argument building of `api_call`, and the request/response
    path of `_urllib_api_call` with its header builder, query-string
    append, debug redaction and `all_params` union. The transport, `urljoin`,
    `urlencode` and `json.loads` are parameters. */
module Client {
  import opened Py
  import opened Errors
  import opened InternalUtils
  import opened Responses

  /** `BaseClient.BASE_URL` and the default `timeout` of `__init__`. */
  const BaseUrl := "https://www.httpbin.com/"
  const DefaultTimeout := 30

  /** A `BaseClient` after `__init__`; nothing changes it afterwards. */
  datatype Client = Client(
    token: Option<string>,
    baseUrl: string,
    timeout: int,
    proxy: Option<string>,
    headers: map<string, string>,
    defaultParams: map<string, Value>)

  /** `BaseClient.__init__`: the token is kept without surrounding
      whitespace, missing or empty headers become `{}`, and there are no
      default parameters. */
  function NewClient(
    token: Option<string> := None, baseUrl: string := BaseUrl, timeout: int := DefaultTimeout,
    proxy: Option<string> := None, headers: Option<map<string, string>> := None): (c: Client)
    ensures token.None? <==> c.token.None?
    ensures c.token.Some? ==> NoOuterSpace(c.token.value) && c.token.value == Strip(token.value)
    ensures c.baseUrl == baseUrl && c.timeout == timeout && c.proxy == proxy
    ensures c.headers == (if headers.Some? then headers.value else map[])
    ensures c.defaultParams == map[]
  {
    Client(if token.None? then None else Some(Strip(token.value)), baseUrl, timeout, proxy, OrEmpty(headers), map[])
  }

  /** A client built from an already stripped token keeps it as given. */
  lemma StrippedTokenKept(token: string)
    requires NoOuterSpace(token)
    ensures NewClient(Some(token)) == Client(Some(token), BaseUrl, DefaultTimeout, None, map[], map[])
  {
    StripUnchanged(token);
  }

  // ----- api_call -----

  /** `headers = headers or {}; headers.update(self.headers)`. A non-empty
      caller dict is updated in place and is the dict used from then on;
      a missing or empty one is replaced by a fresh dict and left as it
      was. Client headers win on every key they have. */
  method MergeCallHeaders(client: Client, headers: Dict?<string>) returns (merged: Dict<string>)
    modifies headers
    ensures merged.entries == (if headers == null then map[] else old(headers.entries)) + client.headers
    ensures headers != null && old(headers.entries) != map[] ==> merged == headers
    ensures headers == null || old(headers.entries) == map[] ==> fresh(merged)
    ensures headers != null && old(headers.entries) == map[] ==> headers.entries == map[]
  {
    if headers != null && headers.entries != map[] {
      merged := headers;
    } else {
      merged := new Dict(map[]);
    }
    merged.Update(client.headers);
  }

  /** `api_call` up to the transport, passing the verb as `http_verb`: the
      URL it would send to and the built request arguments, or the
      verb/body error. `_sync_send` is not part of this model. */
  method ApiCall(
    client: Client, apiMethod: string, urljoin: (string, string) -> string, httpVerb: string,
    files: Dict?<Value>, data: Dict?<Value>, params: Dict?<Value>, json: Dict?<Value>,
    headers: Dict?<string>, auth: Value, userAgent: string)
    returns (apiUrl: string, r: Result<ReqArgs>)
    modifies headers, json
    ensures apiUrl == urljoin(client.baseUrl, apiMethod)
    ensures r.Failure? <==> json != null && httpVerb != "POST"
    ensures r.Failure? ==> r.error == RequestError(JsonNeedsPost)
    ensures r.Success? ==>
      var merged := (if headers == null then map[] else old(headers.entries)) + client.headers;
      ArgsResolved(r.value, TokenValue(client.token), old(Snapshot(files)), old(Snapshot(data)),
                   client.defaultParams, old(Snapshot(params)), old(Snapshot(json)),
                   Some(merged), auth, client.proxy, userAgent)
    // the caller's headers dict: merged in place when non-empty, else left empty
    ensures headers != null && old(headers.entries) != map[] ==>
      headers.entries == old(headers.entries) + client.headers
    ensures headers != null && old(headers.entries) == map[] ==> headers.entries == map[]
    // the caller's json dict: defaulted and token-popped in place, and it is
    // the dict the request arguments hold; untouched on the verb error
    ensures r.Success? && json != null ==>
      && r.value.json == Some(json.entries)
      && json.entries == WithDefaults(old(json.entries), client.defaultParams) - {TokenKey}
    ensures r.Failure? && json != null ==> json.entries == old(json.entries)
  {
    apiUrl := urljoin(client.baseUrl, apiMethod);
    var merged := MergeCallHeaders(client, headers);
    r := BuildReqArgs(TokenValue(client.token), httpVerb, files, data, client.defaultParams,
                      params, json, Some(merged.entries), auth, client.proxy, userAgent);
  }

  /** `api_call` as written: it passes `http_method=` to `_build_req_args`,
      whose parameter is `http_verb`, so every call fails with a TypeError
      after the caller's headers have been merged. */
  method ApiCallAsWritten(
    client: Client, apiMethod: string, urljoin: (string, string) -> string, httpVerb: string,
    files: Dict?<Value>, data: Dict?<Value>, params: Dict?<Value>, json: Dict?<Value>,
    headers: Dict?<string>, auth: Value)
    returns (apiUrl: string, r: Result<ReqArgs>)
    modifies headers
    ensures r == Failure(TypeError("_build_req_args() got an unexpected keyword argument 'http_method'"))
    ensures headers != null && old(headers.entries) != map[] ==>
      headers.entries == old(headers.entries) + client.headers
    ensures headers != null && old(headers.entries) == map[] ==> headers.entries == map[]
    ensures json != null ==> json.entries == old(json.entries)
  {
    apiUrl := urljoin(client.baseUrl, apiMethod);
    var merged := MergeCallHeaders(client, headers);
    r := Failure(TypeError("_build_req_args() got an unexpected keyword argument 'http_method'"));
  }

  /** The client's `Optional[str]` token as the value `_build_req_args` receives. */
  function TokenValue(token: Option<string>): (v: Value)
    ensures token.None? ==> v == Null
    ensures token.Some? ==> v == Text(token.value) && Show(v) == token.value
  {
    if token.None? then Null else Text(token.value)
  }

  // ----- _urllib_api_call -----

  /** What `_build_urllib_request_headers` promises, key by key. Unlike
      `_get_headers`, the bearer token is applied after the client headers,
      so it overrides a client `Authorization`; additional headers still
      override it, and no `User-Agent` is generated. */
  ghost predicate UrllibHeadersResolved(
    r: map<string, string>, client: map<string, string>, token: Option<string>,
    hasJson: bool, hasFiles: bool, additional: map<string, string>)
  {
    && (hasFiles ==> ContentType !in r)
    && (!hasFiles && hasJson ==> Lookup(r, ContentType) == Some(JsonUtf8))
    && (!hasFiles && !hasJson ==>
          Lookup(r, ContentType) == FirstSupplier(ContentType, [additional, client, map[ContentType := FormUrlEncoded]]))
    && Lookup(r, Authorization) == FirstSupplier(Authorization, [additional, BearerHeader(TokenValue(token)), client])
    && forall k :: k != ContentType && k != Authorization ==> Lookup(r, k) == FirstSupplier(k, [additional, client])
  }

  /** `_build_urllib_request_headers`, by successive updates and a final pop. */
  method BuildUrllibRequestHeaders(
    client: Client, token: Option<string>, hasJson: bool, hasFiles: bool,
    additionalHeaders: map<string, string>)
    returns (headers: map<string, string>)
    ensures UrllibHeadersResolved(headers, client.headers, token, hasJson, hasFiles, additionalHeaders)
  {
    headers := map[ContentType := FormUrlEncoded];
    headers := headers + client.headers;
    if token.Some? && token.value != "" {
      headers := headers + map[Authorization := "Bearer " + token.value];
    }
    if additionalHeaders != map[] {
      headers := headers + additionalHeaders;
    }
    ghost var merged := headers;
    if hasJson {
      headers := headers + map[ContentType := JsonUtf8];
    }
    if hasFiles {
      headers := headers - {ContentType};
    }
    assert merged == map[ContentType := FormUrlEncoded] + client.headers + BearerHeader(TokenValue(token)) + additionalHeaders;
    UrllibLayersResolve(client.headers, token, hasJson, hasFiles, additionalHeaders);
  }

  /** The layers `_build_urllib_request_headers` merges, lowest first, meet
      UrllibHeadersResolved. */
  lemma UrllibLayersResolve(
    client: map<string, string>, token: Option<string>, hasJson: bool, hasFiles: bool,
    additional: map<string, string>)
    ensures var m := map[ContentType := FormUrlEncoded] + client + BearerHeader(TokenValue(token)) + additional;
      UrllibHeadersResolved(Finish(m, hasJson, hasFiles), client, token, hasJson, hasFiles, additional)
  {
    var base := map[ContentType := FormUrlEncoded];
    var b := BearerHeader(TokenValue(token));
    var m := base + client + b + additional;
    forall k
      ensures Lookup(m, k) == if k in additional then Some(additional[k]) else if k in b then Some(b[k])
                              else if k in client then Some(client[k]) else Lookup(base, k)
    {
      LookupUnion(base + client + b, additional, k);
      LookupUnion(base + client, b, k);
      LookupUnion(base, client, k);
    }
    forall k ensures FirstSupplier(k, [additional, client]) == if k in additional then Some(additional[k]) else Lookup(client, k) {
      FirstOfTwo(k, additional, client);
    }
    FirstOfThree(ContentType, additional, client, base);
    FirstOfTwo(ContentType, client, base);
    FirstOfThree(Authorization, additional, b, client);
    FirstOfTwo(Authorization, b, client);
    FinishKeepsOtherKeys(m, hasJson, hasFiles);
    FinishContentType(m, hasJson, hasFiles);
    assert ContentType !in b;
    assert forall k :: k != Authorization ==> k !in b;
  }

  /** With the same client headers holding an `Authorization`, a non-empty
      token and no per-call `Authorization`, the two header builders
      disagree: `_get_headers` keeps the client's value, while
      `_build_urllib_request_headers` sends the bearer token. */
  lemma TokenStepOrderDiffers(
    a: map<string, string>, b: map<string, string>, client: map<string, string>, token: string,
    hasJson: bool, hasFiles: bool, userAgent: string)
    requires HeadersResolved(a, Some(client), Text(token), hasJson, hasFiles, None, userAgent)
    requires UrllibHeadersResolved(b, client, Some(token), hasJson, hasFiles, map[])
    requires Authorization in client && token != ""
    ensures Authorization in a && a[Authorization] == client[Authorization]
    ensures Authorization in b && b[Authorization] == "Bearer " + token
  {
    UnfoldPrecedence(Some(client), Text(token), None, userAgent);
    var bearer := BearerHeader(Text(token));
    FirstOfThree(Authorization, map[], bearer, client);
    FirstOfTwo(Authorization, bearer, client);
  }

  /** The text before the first `?` of a URL. */
  function PathPart(url: string): (p: string)
    ensures '?' !in p
    ensures |p| <= |url| && p == url[..|p|]
    ensures |p| < |url| ==> url[|p|] == '?'
  {
    if url == [] || url[0] == '?' then [] else [url[0]] + PathPart(url[1..])
  }

  /** Appending after a `?` leaves the part before it alone. */
  lemma {:induction false} PathPartOfExtension(url: string, rest: string)
    requires '?' in url
    ensures PathPart(url + rest) == PathPart(url)
  {
    if url[0] != '?' {
      assert (url + rest)[1..] == url[1..] + rest;
      PathPartOfExtension(url[1..], rest);
    }
  }

  lemma {:induction false} PathPartOfPlainUrl(url: string, rest: string)
    requires '?' !in url
    ensures PathPart(url + "?" + rest) == url
  {
    if url != [] {
      assert (url + "?" + rest)[1..] == url[1..] + "?" + rest;
      PathPartOfPlainUrl(url[1..], rest);
    } else {
      assert url + "?" + rest == "?" + rest;
    }
  }

  /** The query-string append of `_urllib_api_call`: nothing when there are
      no query parameters, else `&` and the encoded query after a URL that
      already has a `?`, and `?` and the encoded query otherwise. */
  function AppendQuery(url: string, query: map<string, Value>, urlencode: map<string, Value> -> string): (r: string)
    ensures query == map[] ==> r == url
    ensures query != map[] ==> r == url + [if '?' in url then '&' else '?'] + urlencode(query)
  {
    if query == map[] then url
    else if '?' in url then url + "&" + urlencode(query)
    else url + "?" + urlencode(query)
  }

  /** Appending a query never changes the part of the URL before its first
      `?`, and a URL with query parameters always has a `?` afterwards. */
  lemma AppendQueryKeepsPath(url: string, query: map<string, Value>, urlencode: map<string, Value> -> string)
    ensures PathPart(AppendQuery(url, query, urlencode)) == PathPart(url)
    ensures query != map[] ==> '?' in AppendQuery(url, query, urlencode)
  {
    if query != map[] {
      var r := AppendQuery(url, query, urlencode);
      if '?' in url {
        PathPartOfExtension(url, "&" + urlencode(query));
        assert r == url + ("&" + urlencode(query));
        var i :| 0 <= i < |url| && url[i] == '?';
        assert r[i] == '?';
      } else {
        PathPartOfPlainUrl(url, urlencode(query));
        PathPartOfPlainUrl(url, []);
        assert PathPart(url + "?" + []) == url;
        assert r[|url|] == '?';
      }
    }
  }

  const RedactedMarker := "(redacted)"
  const BytesMarker := "(bytes)"

  /** `k.lower() == "authorization"` */
  predicate IsAuthorizationKey(k: string) {
    LowerAscii(k) == "authorization"
  }

  /** The header map logged in debug mode: the same keys, with every
      `Authorization` spelling's value replaced by `(redacted)`. */
  function RedactHeaders(headers: map<string, string>): (r: map<string, string>)
    ensures r.Keys == headers.Keys
    ensures forall k :: k in r && IsAuthorizationKey(k) ==> r[k] == RedactedMarker
    ensures forall k :: k in r && !IsAuthorizationKey(k) ==> r[k] == headers[k]
  {
    map k | k in headers :: if IsAuthorizationKey(k) then RedactedMarker else headers[k]
  }

  /** Redacting a redacted map changes nothing. */
  lemma RedactIdempotent(headers: map<string, string>)
    ensures RedactHeaders(RedactHeaders(headers)) == RedactHeaders(headers)
  {
  }

  /** Every casing of the header name is caught; a padded name is not. */
  lemma AuthorizationSpellings()
    ensures IsAuthorizationKey("Authorization") && IsAuthorizationKey("AUTHORIZATION")
    ensures IsAuthorizationKey("authorization")
    ensures !IsAuthorizationKey("Authorization ") && !IsAuthorizationKey("Proxy-Authorization")
  {
    assert LowerAscii("Authorization ") != "authorization" by {
      assert |LowerAscii("Authorization ")| == 14;
    }
    assert LowerAscii("Proxy-Authorization") != "authorization" by {
      assert |LowerAscii("Proxy-Authorization")| == 19;
    }
  }

  /** `convert_params`: `{}` for a missing or empty argument; otherwise the
      same keys, each bytes value shown as `(bytes)` and the rest kept. */
  function ConvertParams(values: Option<map<string, Value>>): (r: map<string, Value>)
    ensures values.None? || values.value == map[] ==> r == map[]
    ensures values.Some? ==> r.Keys == values.value.Keys
    ensures values.Some? ==> forall k :: k in r ==>
      r[k] == if values.value[k].Bytes? then Text(BytesMarker) else values.value[k]
  {
    if values.None? || values.value == map[] then map[]
    else map k | k in values.value :: if values.value[k].Bytes? then Text(BytesMarker) else values.value[k]
  }

  /** No raw bytes reach the debug log, and converting twice is converting once. */
  lemma ConvertParamsHidesBytes(values: Option<map<string, Value>>)
    ensures forall k :: k in ConvertParams(values) ==> !ConvertParams(values)[k].Bytes?
    ensures ConvertParams(Some(ConvertParams(values))) == ConvertParams(values)
  {
  }

  /** The raw body the transport returns. */
  datatype Body = TextBody(text: string) | BinaryBody(bytes: seq<bv8>) | NoBody

  /** The transport's reply: status, headers and body. */
  datatype Reply = Reply(status: int, headers: map<string, string>, body: Body)

  /** The URL and `request_args` handed to the transport. */
  datatype Sent = Sent(
    url: string,
    headers: map<string, string>,
    data: map<string, Value>,
    params: Option<map<string, Value>>,
    files: Option<map<string, Value>>,
    json: Option<map<string, Value>>)

  /** `token or self.token` */
  function EitherToken(token: Option<string>, clientToken: Option<string>): (t: Option<string>)
    ensures token.Some? && token.value != "" ==> t == token
    ensures !(token.Some? && token.value != "") ==> t == clientToken
  {
    if token.Some? && token.value != "" then token else clientToken
  }

  /** The body as `Response.data` holds it, when it could be decoded. */
  function Decoded(body: Body, parseJson: string -> Option<map<string, Value>>): Option<Data> {
    match body
    case NoBody => Some(Missing)
    case BinaryBody(b) => Some(Binary(b))
    case TextBody(t) => if parseJson(t).Some? then Some(Mapping(parseJson(t).value)) else None
  }

  /** `_urllib_api_call` with `has_json` taken from `json_body` (the source
      tests the `json` module, see UrllibRequestHeadersAsWritten). The
      transport's `reply` to `sent` is given; `allParams` is the
      `request_args["params"]` it ends with once the body is decoded. */
  method UrllibApiCall(
    client: Client, token: Option<string>, url: string, queryParams: map<string, Value>,
    jsonBody: Option<map<string, Value>>, bodyParams: Option<map<string, Value>>,
    files: Option<map<string, Value>>, additionalHeaders: map<string, string>,
    urlencode: map<string, Value> -> string, parseJson: string -> Option<map<string, Value>>,
    reply: Reply)
    returns (sent: Sent, allParams: map<string, Value>, r: Result<Response>)
    ensures sent.url == AppendQuery(url, queryParams, urlencode)
    ensures UrllibHeadersResolved(sent.headers, client.headers, EitherToken(token, client.token),
                                  jsonBody.Some?, files.Some?, additionalHeaders)
    ensures sent.data == map[] && sent.params == bodyParams && sent.files == files && sent.json == jsonBody
    ensures Decoded(reply.body, parseJson).Some? ==>
      && allParams.Keys == OrEmpty(bodyParams).Keys + queryParams.Keys
      && (forall k :: k in queryParams ==> allParams[k] == queryParams[k])
      && (forall k :: k in allParams && k !in queryParams ==> allParams[k] == OrEmpty(bodyParams)[k])
    ensures Decoded(reply.body, parseJson).None? ==>
      r == Failure(ApiError(UnexpectedBodyErrorMessage(reply.body.text), sent.url))
    ensures Decoded(reply.body, parseJson).Some? ==>
      r == Validate(Response(sent.url, reply.status, Some(reply.headers), Decoded(reply.body, parseJson).value))
  {
    var requestHeaders := BuildUrllibRequestHeaders(
      client, EitherToken(token, client.token), jsonBody.Some?, files.Some?, additionalHeaders);
    var target := AppendQuery(url, queryParams, urlencode);
    sent := Sent(target, requestHeaders, map[], bodyParams, files, jsonBody);

    var data: Data;
    match reply.body {
      case NoBody => data := Missing;
      case BinaryBody(b) => data := Binary(b);
      case TextBody(t) =>
        var parsed := parseJson(t);
        if parsed.None? {
          // the source raises here, before `all_params` is built
          allParams := map[];
          r := Failure(ApiError(UnexpectedBodyErrorMessage(t), target));
          return;
        }
        data := Mapping(parsed.value);
    }

    allParams := if bodyParams.Some? then bodyParams.value else map[];
    if queryParams != map[] {
      allParams := allParams + queryParams;
    }
    r := Validate(Response(target, reply.status, Some(reply.headers), data));
  }

  /** The headers `_urllib_api_call` sends as written: it passes
      `has_json=json is not None`, which tests the imported `json` module
      and is always true, so a form body without files goes out labelled
      as JSON. */
  method UrllibRequestHeadersAsWritten(
    client: Client, token: Option<string>, files: Option<map<string, Value>>,
    additionalHeaders: map<string, string>)
    returns (headers: map<string, string>)
    ensures files.None? ==> Lookup(headers, ContentType) == Some(JsonUtf8)
    ensures UrllibHeadersResolved(headers, client.headers, EitherToken(token, client.token), true, files.Some?, additionalHeaders)
  {
    headers := BuildUrllibRequestHeaders(client, EitherToken(token, client.token), true, files.Some?, additionalHeaders);
  }
}

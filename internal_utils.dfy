/** Request-argument building (httpbin_sdk/internal_utils.py): the header
    precedence of `_get_headers`, the "only if absent" default merge, the
    `None` stripping, the verb/body check, inline-token extraction, and
    the preview of a body that is not JSON. */
module InternalUtils {
  import opened Py
  import opened Errors

  const ContentType := "Content-Type"
  const UserAgent := "User-Agent"
  const Authorization := "Authorization"
  const FormUrlEncoded := "application/x-www-form-urlencoded"
  const JsonUtf8 := "application/json;charset=utf-8"
  const TokenKey := "token"
  const JsonNeedsPost :=
    "Json data can only be submitted as POST requests. GET requests should use the 'params' argument."

  // ----- headers -----

  function Lookup(m: map<string, string>, k: string): (v: Option<string>)
    ensures k in m <==> v.Some?
    ensures k in m ==> v.value == m[k]
  {
    if k in m then Some(m[k]) else None
  }

  /** The value header `k` takes from `sources`, listed from the one that
      takes precedence down: the first source that has the key wins. */
  function FirstSupplier(k: string, sources: seq<map<string, string>>): Option<string>
  {
    if sources == [] then None
    else if k in sources[0] then Some(sources[0][k])
    else FirstSupplier(k, sources[1..])
  }

  lemma FirstOfTwo(k: string, a: map<string, string>, b: map<string, string>)
    ensures FirstSupplier(k, [a, b]) == if k in a then Some(a[k]) else Lookup(b, k)
  {
    assert [a, b][1..] == [b];
    assert [b][1..] == [];
    assert FirstSupplier(k, [b]) == Lookup(b, k);
  }

  lemma FirstOfThree(k: string, a: map<string, string>, b: map<string, string>, c: map<string, string>)
    ensures FirstSupplier(k, [a, b, c]) == if k in a then Some(a[k]) else FirstSupplier(k, [b, c])
  {
    assert [a, b, c][1..] == [b, c];
  }

  /** The `Authorization` header a token yields: `Bearer <str(token)>` when
      the token is truthy, nothing otherwise. */
  function BearerHeader(token: Value): (h: map<string, string>)
    ensures Truthy(token) ==> h == map[Authorization := "Bearer " + Show(token)]
    ensures !Truthy(token) ==> h == map[]
  {
    if Truthy(token) then map[Authorization := "Bearer " + Show(token)] else map[]
  }

  /** What `_get_headers` promises of its result, key by key. Per-request
      headers beat client headers, which beat the generated `User-Agent`
      and the bearer token; a JSON body forces the JSON content type and
      attached files remove `Content-Type` altogether. */
  ghost predicate HeadersResolved(
    r: map<string, string>, client: Option<map<string, string>>, token: Value,
    hasJson: bool, hasFiles: bool, request: Option<map<string, string>>, userAgent: string)
  {
    var c := OrEmpty(client);
    var q := OrEmpty(request);
    && (hasFiles ==> ContentType !in r)
    && (!hasFiles && hasJson ==> Lookup(r, ContentType) == Some(JsonUtf8))
    && (!hasFiles && !hasJson ==>
          Lookup(r, ContentType) == FirstSupplier(ContentType, [q, c, map[ContentType := FormUrlEncoded]]))
    && Lookup(r, UserAgent) == FirstSupplier(UserAgent, [q, c, map[UserAgent := userAgent]])
    && Lookup(r, Authorization) == FirstSupplier(Authorization, [q, c, BearerHeader(token)])
    && forall k :: k != ContentType && k != UserAgent && k != Authorization ==>
         Lookup(r, k) == FirstSupplier(k, [q, c])
  }

  /** `_get_headers`, with `get_user_agent()` given as `userAgent`. The
      header map is built by successive updates and a final pop, in the
      source's order. */
  method GetHeaders(
    clientHeaders: Option<map<string, string>>, token: Value, hasJson: bool, hasFiles: bool,
    requestHeaders: Option<map<string, string>>, userAgent: string)
    returns (finalHeaders: map<string, string>)
    ensures HeadersResolved(finalHeaders, clientHeaders, token, hasJson, hasFiles, requestHeaders, userAgent)
  {
    finalHeaders := map[ContentType := FormUrlEncoded];
    if clientHeaders.None? || UserAgent !in clientHeaders.value {
      finalHeaders := finalHeaders[UserAgent := userAgent];
    }
    if Truthy(token) {
      finalHeaders := finalHeaders + map[Authorization := "Bearer " + Show(token)];
    }
    var headers := if clientHeaders.None? then map[] else clientHeaders.value;
    finalHeaders := finalHeaders + headers;
    if requestHeaders.Some? && requestHeaders.value != map[] {
      finalHeaders := finalHeaders + requestHeaders.value;
    }
    ghost var merged := finalHeaders;
    if hasJson {
      finalHeaders := finalHeaders + map[ContentType := JsonUtf8];
    }
    if hasFiles {
      finalHeaders := finalHeaders - {ContentType};
    }
    ghost var c, q := OrEmpty(clientHeaders), OrEmpty(requestHeaders);
    ghost var agent := if clientHeaders.None? || UserAgent !in c
      then map[ContentType := FormUrlEncoded, UserAgent := userAgent]
      else map[ContentType := FormUrlEncoded];
    assert merged == agent + BearerHeader(token) + c + q;
    LayersResolve(agent, clientHeaders, token, hasJson, hasFiles, requestHeaders, userAgent);
  }

  lemma LookupUnion(a: map<string, string>, b: map<string, string>, k: string)
    ensures Lookup(a + b, k) == if k in b then Some(b[k]) else Lookup(a, k)
  {
  }

  /** `_json_` forcing and the files pop applied to a merged header map. */
  function Finish(m: map<string, string>, hasJson: bool, hasFiles: bool): map<string, string> {
    var j := if hasJson then m + map[ContentType := JsonUtf8] else m;
    if hasFiles then j - {ContentType} else j
  }

  /** The layers `_get_headers` merges, lowest first, meet HeadersResolved. */
  lemma LayersResolve(
    agent: map<string, string>, client: Option<map<string, string>>, token: Value,
    hasJson: bool, hasFiles: bool, request: Option<map<string, string>>, userAgent: string)
    requires var c := OrEmpty(client);
      || agent == map[ContentType := FormUrlEncoded, UserAgent := userAgent]
      || (agent == map[ContentType := FormUrlEncoded] && UserAgent in c)
    ensures var m := agent + BearerHeader(token) + OrEmpty(client) + OrEmpty(request);
      HeadersResolved(Finish(m, hasJson, hasFiles), client, token, hasJson, hasFiles, request, userAgent)
  {
    var c, q := OrEmpty(client), OrEmpty(request);
    var b := BearerHeader(token);
    var m := agent + b + c + q;
    var r := Finish(m, hasJson, hasFiles);
    UnfoldPrecedence(client, token, request, userAgent);
    forall k
      ensures Lookup(m, k) == if k in q then Some(q[k]) else if k in c then Some(c[k])
                              else if k in b then Some(b[k]) else Lookup(agent, k)
    {
      LookupUnion(agent + b + c, q, k);
      LookupUnion(agent + b, c, k);
      LookupUnion(agent, b, k);
    }
    FinishKeepsOtherKeys(m, hasJson, hasFiles);
    FinishContentType(m, hasJson, hasFiles);
    assert Authorization !in agent;
    assert forall k :: k != Authorization ==> k !in b;
  }

  lemma FinishKeepsOtherKeys(m: map<string, string>, hasJson: bool, hasFiles: bool)
    ensures forall k :: k != ContentType ==> Lookup(Finish(m, hasJson, hasFiles), k) == Lookup(m, k)
  {
  }

  lemma FinishContentType(m: map<string, string>, hasJson: bool, hasFiles: bool)
    ensures hasFiles ==> ContentType !in Finish(m, hasJson, hasFiles)
    ensures !hasFiles && hasJson ==> Lookup(Finish(m, hasJson, hasFiles), ContentType) == Some(JsonUtf8)
    ensures !hasFiles && !hasJson ==> Finish(m, hasJson, hasFiles) == m
  {
  }

  /** The precedence lists of HeadersResolved, written out. */
  lemma UnfoldPrecedence(
    client: Option<map<string, string>>, token: Value, request: Option<map<string, string>>, userAgent: string)
    ensures var c, q := OrEmpty(client), OrEmpty(request);
      && (forall k :: FirstSupplier(k, [q, c]) == if k in q then Some(q[k]) else Lookup(c, k))
      && FirstSupplier(ContentType, [q, c, map[ContentType := FormUrlEncoded]])
         == (if ContentType in q then Some(q[ContentType]) else if ContentType in c then Some(c[ContentType])
             else Some(FormUrlEncoded))
      && FirstSupplier(UserAgent, [q, c, map[UserAgent := userAgent]])
         == (if UserAgent in q then Some(q[UserAgent]) else if UserAgent in c then Some(c[UserAgent])
             else Some(userAgent))
      && FirstSupplier(Authorization, [q, c, BearerHeader(token)])
         == (if Authorization in q then Some(q[Authorization]) else if Authorization in c then Some(c[Authorization])
             else Lookup(BearerHeader(token), Authorization))
  {
    var c, q := OrEmpty(client), OrEmpty(request);
    forall k ensures FirstSupplier(k, [q, c]) == if k in q then Some(q[k]) else Lookup(c, k) {
      FirstOfTwo(k, q, c);
    }
    FirstOfThree(ContentType, q, c, map[ContentType := FormUrlEncoded]);
    FirstOfTwo(ContentType, c, map[ContentType := FormUrlEncoded]);
    FirstOfThree(UserAgent, q, c, map[UserAgent := userAgent]);
    FirstOfTwo(UserAgent, c, map[UserAgent := userAgent]);
    FirstOfThree(Authorization, q, c, BearerHeader(token));
    FirstOfTwo(Authorization, c, BearerHeader(token));
  }

  /** The precedence rules leave no freedom: one header map at most meets them. */
  lemma HeadersResolvedUnique(
    a: map<string, string>, b: map<string, string>, client: Option<map<string, string>>, token: Value,
    hasJson: bool, hasFiles: bool, request: Option<map<string, string>>, userAgent: string)
    requires HeadersResolved(a, client, token, hasJson, hasFiles, request, userAgent)
    requires HeadersResolved(b, client, token, hasJson, hasFiles, request, userAgent)
    ensures a == b
  {
    forall k
      ensures Lookup(a, k) == Lookup(b, k)
    {
      if k == ContentType && hasFiles {
        assert k !in a && k !in b;
      }
    }
    assert forall k :: k in a <==> k in b by {
      forall k ensures k in a <==> k in b {
        assert Lookup(a, k) == Lookup(b, k);
      }
    }
    forall k | k in a
      ensures a[k] == b[k]
    {
      assert Lookup(a, k) == Lookup(b, k);
    }
  }

  /** `_build_req_args` passes one dict as both the client headers and the
      per-request headers; merging it a second time changes nothing. */
  lemma RequestHeadersTwiceSameAsOnce(
    r: map<string, string>, h: map<string, string>, token: Value,
    hasJson: bool, hasFiles: bool, userAgent: string)
    ensures HeadersResolved(r, Some(h), token, hasJson, hasFiles, Some(h), userAgent)
        <==> HeadersResolved(r, Some(h), token, hasJson, hasFiles, None, userAgent)
  {
    UnfoldPrecedence(Some(h), token, Some(h), userAgent);
    UnfoldPrecedence(Some(h), token, None, userAgent);
  }

  // ----- payloads -----

  /** `{k: v for k, v in m.items() if v is not None}` */
  function DropNone(m: map<string, Value>): (r: map<string, Value>)
    ensures forall k :: k in r <==> k in m && !m[k].Null?
    ensures forall k :: k in r ==> r[k] == m[k]
  {
    map k | k in m && !m[k].Null? :: m[k]
  }

  /** What `_set_default_params` leaves in `target`: every key keeps its
      value, and the defaults fill in the keys it lacks. */
  function WithDefaults(target: map<string, Value>, defaults: map<string, Value>): (r: map<string, Value>)
    ensures r.Keys == target.Keys + defaults.Keys
    ensures forall k :: k in target ==> r[k] == target[k]
    ensures forall k :: k in defaults && k !in target ==> r[k] == defaults[k]
  {
    defaults + target
  }

  /** Defaults the target already has change nothing, so merging twice is merging once. */
  lemma WithDefaultsIdempotent(target: map<string, Value>, defaults: map<string, Value>)
    ensures WithDefaults(WithDefaults(target, defaults), defaults) == WithDefaults(target, defaults)
  {
  }

  /** `_set_default_params`: writes each default into `target` unless the
      key is already there. The source walks the defaults in insertion
      order; keys are distinct, so the order does not change the result. */
  method SetDefaultParams(target: Dict<Value>, defaults: map<string, Value>)
    modifies target
    ensures target.entries == WithDefaults(old(target.entries), defaults)
  {
    var pending := defaults.Keys;
    ghost var done: set<string> := {};
    while pending != {}
      invariant pending + done == defaults.Keys && pending !! done
      invariant target.entries == WithDefaults(old(target.entries), map k | k in done :: defaults[k])
      decreases pending
    {
      var name :| name in pending;
      if name !in target.entries {
        target.entries := target.entries[name := defaults[name]];
      }
      pending := pending - {name};
      done := done + {name};
    }
    assert (map k | k in done :: defaults[k]) == defaults;
  }

  /** A payload after `None` stripping and the default merge. */
  function Prepared(m: Option<map<string, Value>>, defaults: map<string, Value>): Option<map<string, Value>> {
    if m.None? then None else Some(WithDefaults(DropNone(m.value), defaults))
  }

  /** A payload after the default merge alone (the JSON payload is not stripped). */
  function Defaulted(m: Option<map<string, Value>>, defaults: map<string, Value>): Option<map<string, Value>> {
    if m.None? then None else Some(WithDefaults(m.value, defaults))
  }

  /** A payload with its `token` key popped. */
  function WithoutToken(m: Option<map<string, Value>>): (r: Option<map<string, Value>>)
    ensures m.None? <==> r.None?
    ensures r.Some? ==> TokenKey !in r.value && r.value.Keys == m.value.Keys - {TokenKey}
    ensures r.Some? ==> forall k :: k in r.value ==> r.value[k] == m.value[k]
  {
    if m.None? then None else Some(m.value - {TokenKey})
  }

  /** The token a call ends up with: a `token` in the JSON payload, else
      one in the query parameters, else the client's. */
  function EffectiveToken(token: Value, params: Option<map<string, Value>>, json: Option<map<string, Value>>): Value {
    if json.Some? && TokenKey in json.value then json.value[TokenKey]
    else if params.Some? && TokenKey in params.value then params.value[TokenKey]
    else token
  }

  /** The fully built request arguments. `ssl` is not among them (see
      BuildReqArgsAsWritten). */
  datatype ReqArgs = ReqArgs(
    headers: map<string, string>,
    data: Option<map<string, Value>>,
    files: Option<map<string, Value>>,
    params: Option<map<string, Value>>,
    json: Option<map<string, Value>>,
    proxy: Option<string>,
    auth: Value)

  /** What a successful `_build_req_args` returns, in terms of the
      arguments' entries as they were on entry. */
  ghost predicate ArgsResolved(
    r: ReqArgs, token: Value, files: Option<map<string, Value>>, data: Option<map<string, Value>>,
    defaults: map<string, Value>, params: Option<map<string, Value>>, json: Option<map<string, Value>>,
    headers: Option<map<string, string>>, auth: Value, proxy: Option<string>, userAgent: string)
  {
    var p := Prepared(params, defaults);
    var j := Defaulted(json, defaults);
    && r.data == Prepared(data, defaults)
    && r.files == (if files.None? then None else Some(DropNone(files.value)))
    && r.params == WithoutToken(p)
    && r.json == WithoutToken(j)
    && HeadersResolved(r.headers, headers, EffectiveToken(token, p, j), json.Some?, files.Some?, headers, userAgent)
    && r.proxy == proxy
    && r.auth == auth
  }

  /** `_build_req_args` with its `ssl` entry dropped (the name is undefined
      in the source). The caller's `data`, `files` and `params` objects are
      only read; its `json` object receives the defaults and loses its
      `token`, as in the source. A JSON body with a verb other than POST
      is refused before anything is touched. */
  method BuildReqArgs(
    token: Value, httpVerb: string, files: Dict?<Value>, data: Dict?<Value>,
    defaultParams: map<string, Value>, params: Dict?<Value>, json: Dict?<Value>,
    headers: Option<map<string, string>>, auth: Value, proxy: Option<string>, userAgent: string)
    returns (r: Result<ReqArgs>)
    modifies json
    ensures r.Failure? <==> json != null && httpVerb != "POST"
    ensures r.Failure? ==> r.error == RequestError(JsonNeedsPost)
    ensures r.Failure? ==> json.entries == old(json.entries)
    ensures r.Success? ==>
      ArgsResolved(r.value, token, old(Snapshot(files)), old(Snapshot(data)), defaultParams,
                   old(Snapshot(params)), old(Snapshot(json)), headers, auth, proxy, userAgent)
    ensures r.Success? && json != null ==> r.value.json == Some(json.entries)
  {
    var hasJson := json != null;
    var hasFiles := files != null;
    if hasJson && httpVerb != "POST" {
      return Failure(RequestError(JsonNeedsPost));
    }
    ghost var filesIn, dataIn, paramsIn, jsonIn := Snapshot(files), Snapshot(data), Snapshot(params), Snapshot(json);

    var dataOut: Option<map<string, Value>> := None;
    if data != null {
      var d := new Dict(DropNone(data.entries));
      SetDefaultParams(d, defaultParams);
      dataOut := Some(d.entries);
    }
    var filesOut: Option<map<string, Value>> := None;
    if files != null {
      filesOut := Some(DropNone(files.entries));
    }
    var p: Dict?<Value> := null;
    if params != null {
      p := new Dict(DropNone(params.entries));
      SetDefaultParams(p, defaultParams);
    }
    if json != null {
      SetDefaultParams(json, defaultParams);
    }
    ghost var pMerged, jMerged := Snapshot(p), Snapshot(json);
    assert pMerged == Prepared(paramsIn, defaultParams);
    assert jMerged == Defaulted(jsonIn, defaultParams);

    var effective := token;
    if p != null && TokenKey in p.entries {
      effective := p.Pop(TokenKey);
    } else if p != null {
      assert p.entries == p.entries - {TokenKey};
    }
    if json != null && TokenKey in json.entries {
      effective := json.Pop(TokenKey);
    } else if json != null {
      assert json.entries == json.entries - {TokenKey};
    }
    assert effective == EffectiveToken(token, pMerged, jMerged);

    var finalHeaders := GetHeaders(headers, effective, hasJson, hasFiles, headers, userAgent);
    r := Success(ReqArgs(finalHeaders, dataOut, filesOut, Snapshot(p), Snapshot(json), proxy, auth));
    assert dataOut == Prepared(dataIn, defaultParams);
    assert filesOut == (if filesIn.None? then None else Some(DropNone(filesIn.value)));
    assert Snapshot(p) == WithoutToken(pMerged);
    assert Snapshot(json) == WithoutToken(jMerged);
    assert ArgsResolved(r.value, token, filesIn, dataIn, defaultParams, paramsIn, jsonIn, headers, auth, proxy, userAgent);
  }

  /** `_build_req_args` as the source has it. Building the `req_args`
      literal first calls `_get_headers`, whose `get_user_agent()` reads
      `sys` although `sys` is never imported, whenever the headers lack a
      `User-Agent`; otherwise it reaches the undefined name `ssl`. Either
      way the call fails after the caller's `json` has been changed. */
  method BuildReqArgsAsWritten(
    token: Value, httpVerb: string, files: Dict?<Value>, data: Dict?<Value>,
    defaultParams: map<string, Value>, params: Dict?<Value>, json: Dict?<Value>,
    headers: Option<map<string, string>>, auth: Value, proxy: Option<string>, userAgent: string)
    returns (r: Result<ReqArgs>)
    modifies json
    ensures r.Failure?
    ensures json != null && httpVerb != "POST" ==>
      r.error == RequestError(JsonNeedsPost) && json.entries == old(json.entries)
    ensures !(json != null && httpVerb != "POST") ==>
      r.error == (if headers.None? || UserAgent !in headers.value then NameError("sys") else NameError("ssl"))
    ensures !(json != null && httpVerb != "POST") && json != null ==>
      json.entries == WithDefaults(old(json.entries), defaultParams) - {TokenKey}
  {
    r := BuildReqArgs(token, httpVerb, files, data, defaultParams, params, json, headers, auth, proxy, userAgent);
    if r.Success? {
      r := Failure(if headers.None? || UserAgent !in headers.value then NameError("sys") else NameError("ssl"));
    }
  }

  // ----- the preview of a body that is not JSON -----

  const NonJsonPrefix := "Received a response in a non-JSON format: "
  const PreviewLimit := 100

  /** `body.replace("\r", "\n")` */
  function CarriageReturnsToNewlines(s: string): (r: string)
    ensures |r| == |s| && '\r' !in r
    ensures forall i :: 0 <= i < |s| ==> r[i] == (if s[i] == '\r' then '\n' else s[i])
  {
    seq(|s|, i requires 0 <= i < |s| => if s[i] == '\r' then '\n' else s[i])
  }

  /** `"\n".join(lines)` */
  function JoinLines(lines: seq<string>): string
    requires lines != []
  {
    if |lines| == 1 then lines[0] else lines[0] + "\n" + JoinLines(lines[1..])
  }

  /** `s.split("\n")`: the pieces between newlines, one more than there are
      newlines; joining them with newlines gives `s` back. */
  function SplitLines(s: string): (lines: seq<string>)
    ensures lines != []
    ensures forall i :: 0 <= i < |lines| ==> '\n' !in lines[i]
    ensures JoinLines(lines) == s
  {
    if s == [] then [""]
    else
      var rest := SplitLines(s[1..]);
      if s[0] == '\n' then [""] + rest
      else
        assert s == [s[0]] + JoinLines(rest);
        [[s[0]] + rest[0]] + rest[1..]
  }

  /** `"".join(pieces)` */
  function Concat(pieces: seq<string>): string {
    if pieces == [] then "" else pieces[0] + Concat(pieces[1..])
  }

  function StripEach(lines: seq<string>): (r: seq<string>)
    ensures |r| == |lines|
    ensures forall i :: 0 <= i < |lines| ==> r[i] == Strip(lines[i])
  {
    seq(|lines|, i requires 0 <= i < |lines| => Strip(lines[i]))
  }

  /** `"".join([line.strip() for line in body.replace("\r", "\n").split("\n")])` */
  function CollapsedBody(body: string): string {
    Concat(StripEach(SplitLines(CarriageReturnsToNewlines(body))))
  }

  /** The collapsed body, cut to its first 100 characters plus `...` when longer. */
  function Preview(body: string): string {
    var c := CollapsedBody(body);
    if |c| > PreviewLimit then c[..PreviewLimit] + "..." else c
  }

  /** `_build_unexpected_body_error_message` */
  function UnexpectedBodyErrorMessage(body: string): (m: string)
    ensures m == NonJsonPrefix + Preview(body)
    ensures |m| <= |NonJsonPrefix| + PreviewLimit + 3
  {
    NonJsonPrefix + Preview(body)
  }

  lemma {:induction false} ConcatKeepsCharacters(pieces: seq<string>, c: char)
    requires c in Concat(pieces)
    ensures exists i :: 0 <= i < |pieces| && c in pieces[i]
  {
    if c in pieces[0] {
    } else {
      ConcatKeepsCharacters(pieces[1..], c);
      var i :| 0 <= i < |pieces[1..]| && c in pieces[1..][i];
      assert c in pieces[i + 1];
    }
  }

  /** The collapsed body has neither newlines nor carriage returns. */
  lemma CollapsedBodyIsOneLine(body: string)
    ensures '\n' !in CollapsedBody(body) && '\r' !in CollapsedBody(body)
  {
    var replaced := CarriageReturnsToNewlines(body);
    var lines := SplitLines(replaced);
    var stripped := StripEach(lines);
    forall c | c in CollapsedBody(body)
      ensures c != '\n' && c != '\r'
    {
      ConcatKeepsCharacters(stripped, c);
      var i :| 0 <= i < |stripped| && c in stripped[i];
      StripKeepsCharacters(lines[i], c);
      assert c in lines[i];
      assert c != '\n';
      ConcatLinesKeepsCharacters(lines, i, c);
      assert c in replaced;
    }
  }

  lemma {:induction false} ConcatLinesKeepsCharacters(lines: seq<string>, i: nat, c: char)
    requires lines != [] && i < |lines| && c in lines[i]
    ensures c in JoinLines(lines)
  {
    if i > 0 {
      ConcatLinesKeepsCharacters(lines[1..], i - 1, c);
    }
  }

  /** The preview is one line of at most 100 characters, followed by `...`
      exactly when the collapsed body was longer. */
  lemma PreviewBounds(body: string)
    ensures '\n' !in Preview(body) && '\r' !in Preview(body)
    ensures |CollapsedBody(body)| <= PreviewLimit ==> Preview(body) == CollapsedBody(body)
    ensures |CollapsedBody(body)| > PreviewLimit ==>
      Preview(body) == CollapsedBody(body)[..PreviewLimit] + "..." && |Preview(body)| == PreviewLimit + 3
  {
    CollapsedBodyIsOneLine(body);
    var c := CollapsedBody(body);
    if |c| > PreviewLimit {
      assert forall ch :: ch in c[..PreviewLimit] ==> ch in c;
    }
  }

  /** Pieces that each lack outer whitespace concatenate to a string that lacks it too. */
  lemma {:induction false} ConcatOfStrippedIsStripped(pieces: seq<string>)
    requires forall i :: 0 <= i < |pieces| ==> NoOuterSpace(pieces[i])
    ensures NoOuterSpace(Concat(pieces))
  {
    if pieces != [] {
      ConcatOfStrippedIsStripped(pieces[1..]);
      var head, tail := pieces[0], Concat(pieces[1..]);
      assert NoOuterSpace(head);
      if head != [] && tail != [] {
        assert (head + tail)[0] == head[0];
        assert (head + tail)[|head + tail| - 1] == tail[|tail| - 1];
      } else if head == [] {
        assert head + tail == tail;
      } else {
        assert head + tail == head;
      }
    }
  }

  /** Collapsing an already collapsed body changes nothing. */
  lemma CollapseIdempotent(body: string)
    ensures CollapsedBody(CollapsedBody(body)) == CollapsedBody(body)
  {
    var stripped := StripEach(SplitLines(CarriageReturnsToNewlines(body)));
    ConcatOfStrippedIsStripped(stripped);
    CollapsedBodyIsOneLine(body);
    SingleLineCollapses(CollapsedBody(body));
  }

  /** A one-line body without outer whitespace collapses to itself. */
  lemma SingleLineCollapses(body: string)
    requires '\n' !in body && '\r' !in body
    requires NoOuterSpace(body)
    ensures CollapsedBody(body) == body
  {
    var replaced := CarriageReturnsToNewlines(body);
    assert forall i :: 0 <= i < |body| ==> replaced[i] == body[i];
    assert replaced == body;
    SplitWithoutNewline(body);
    StripUnchanged(body);
    var stripped := StripEach([body]);
    assert stripped == [body];
    assert [body][1..] == [];
    assert Concat([body]) == body + Concat([]);
  }

  lemma {:induction false} SplitWithoutNewline(s: string)
    requires '\n' !in s
    ensures SplitLines(s) == [s]
  {
    if s != [] {
      SplitWithoutNewline(s[1..]);
    }
  }

  /** A short single-line body without outer whitespace is quoted in full. */
  lemma ShortBodyQuotedInFull(body: string)
    requires '\n' !in body && '\r' !in body && NoOuterSpace(body)
    requires |body| <= PreviewLimit
    ensures UnexpectedBodyErrorMessage(body) == NonJsonPrefix + body
  {
    SingleLineCollapses(body);
  }
}

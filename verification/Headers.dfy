/** Case-insensitive header lists, the normalisation of auth arguments into headers,
    and the mock proxy that relays them. */
module Headers {
  import opened Wrappers
  import opened Strings
  import opened Exceptions
  import opened Request

  // ---- multidict values ------------------------------------------------------------------------

  predicate SameName(a: string, b: string) {
    Lower(a) == Lower(b)
  }

  /** headers.get(name): the first value under a name. */
  function First(fs: seq<Field>, name: string): Option<string> {
    if fs == [] then None
    else if SameName(fs[0].0, name) then Some(fs[0].1)
    else First(fs[1..], name)
  }

  /** A value is read exactly when it is that of the first field whose name is the same up to case; nothing is read when
      there is none. */
  lemma {:induction false} FirstIs(fs: seq<Field>, name: string)
    ensures First(fs, name).None? <==> forall i :: 0 <= i < |fs| ==> Lower(fs[i].0) != Lower(name)
    ensures forall i :: 0 <= i < |fs| && Lower(fs[i].0) == Lower(name) && (forall j :: 0 <= j < i ==> Lower(fs[j].0) != Lower(name)) ==>
              First(fs, name) == Some(fs[i].1)
  {
    hide Lower;
    if fs != [] {
      FirstIs(fs[1..], name);
      assert forall i :: 1 <= i < |fs| ==> fs[i] == fs[1..][i - 1];
    }
  }

  /** The fields whose lower-cased name is not in `drop`, in order, duplicates kept. */
  function Keep(fs: seq<Field>, drop: set<string>): seq<Field> {
    if fs == [] then []
    else (if Lower(fs[0].0) in drop then [] else [fs[0]]) + Keep(fs[1..], drop)
  }

  /** headers[name] = value: the first field of that name is replaced in place and the others removed. */
  function Assigned(fs: seq<Field>, name: string, value: string): seq<Field> {
    if fs == [] then [(name, value)]
    else if SameName(fs[0].0, name) then [(name, value)] + Keep(fs[1..], {Lower(name)})
    else [fs[0]] + Assigned(fs[1..], name, value)
  }

  lemma {:induction false} FirstConcat(a: seq<Field>, b: seq<Field>, name: string)
    ensures First(a + b, name) == if First(a, name).Some? then First(a, name) else First(b, name)
  {
    if a == [] {
      assert a + b == b;
    } else {
      assert (a + b)[1..] == a[1..] + b;
      FirstConcat(a[1..], b, name);
    }
  }

  lemma {:induction false} KeepConcat(a: seq<Field>, b: seq<Field>, drop: set<string>)
    ensures Keep(a + b, drop) == Keep(a, drop) + Keep(b, drop)
  {
    if a == [] {
      assert a + b == b;
    } else {
      assert (a + b)[1..] == a[1..] + b;
      KeepConcat(a[1..], b, drop);
    }
  }

  /** A kept name keeps its first value; a dropped name is gone. */
  lemma {:induction false} FirstKept(fs: seq<Field>, name: string, drop: set<string>)
    ensures First(Keep(fs, drop), name) == if Lower(name) in drop then None else First(fs, name)
  {
    if fs != [] {
      FirstKept(fs[1..], name, drop);
      var rest := Keep(fs[1..], drop);
      assert ([fs[0]] + rest)[1..] == rest;
      assert [] + rest == rest;
    }
  }

  /** Assignment changes what one name reads and nothing else, and leaves one field of that name. */
  lemma {:induction false} AssignedReads(fs: seq<Field>, name: string, value: string, other: string)
    ensures First(Assigned(fs, name, value), other) == if SameName(other, name) then Some(value) else First(fs, other)
    ensures Keep(Assigned(fs, name, value), {Lower(name)}) == Keep(fs, {Lower(name)})
  {
    if fs != [] {
      if SameName(fs[0].0, name) {
        var rest := Keep(fs[1..], {Lower(name)});
        var field: Field := (name, value);
        assert ([field] + rest)[1..] == rest;
        FirstKept(fs[1..], other, {Lower(name)});
        KeepTwice(fs[1..], {Lower(name)});
        assert [] + rest == rest;
      } else {
        var rest := Assigned(fs[1..], name, value);
        assert ([fs[0]] + rest)[1..] == rest;
        AssignedReads(fs[1..], name, value, other);
      }
    } else {
      var field: Field := (name, value);
      assert [field][1..] == [];
    }
  }

  lemma {:induction false} KeepTwice(fs: seq<Field>, drop: set<string>)
    ensures Keep(Keep(fs, drop), drop) == Keep(fs, drop)
  {
    if fs != [] {
      KeepTwice(fs[1..], drop);
      var rest := Keep(fs[1..], drop);
      assert ([fs[0]] + rest)[1..] == rest;
      assert [] + rest == rest;
    }
  }

  // ---- auth normalisation ------------------------------------------------------------------------

  const AUTHORIZATION := "Authorization"
  const PROXY_AUTHORIZATION := "Proxy-Authorization"

  function Given(fs: Option<seq<Field>>): seq<Field> {
    if fs.Some? then fs.value else []
  }

  /** kwargs.pop("proxy_auth", default) */
  function PoppedProxyAuth(k: Kwargs, defaultAuth: Option<BasicAuth>): AuthArg {
    if k.proxyAuth.NotGiven? then (if defaultAuth.Some? then Basic(defaultAuth.value) else NoAuth) else k.proxyAuth
  }

  /** The `auth` half of _normalize_auth_kwargs. */
  function NormalizedAuth(k: Kwargs, encode: BasicAuth -> string): Result<Kwargs, Exn> {
    match k.auth
    case NotGiven => Ok(k)
    case NoAuth => Ok(k.(auth := NotGiven))
    case OtherAuth => Err(Own(TypeError))
    case Basic(auth) =>
      var headers := Given(k.headers);
      Ok(k.(auth := NotGiven,
            headers := Some(if First(headers, AUTHORIZATION).None? then Assigned(headers, AUTHORIZATION, encode(auth))
                            else headers)))
  }

  /** The `proxy_auth` half of _normalize_auth_kwargs. */
  function NormalizedProxyAuth(k: Kwargs, defaultAuth: Option<BasicAuth>, encode: BasicAuth -> string)
    : Result<Kwargs, Exn>
  {
    var popped := PoppedProxyAuth(k, defaultAuth);
    var k' := k.(proxyAuth := NotGiven);
    var inRequest := First(Given(k.headers), PROXY_AUTHORIZATION);
    var proxyHeaders := Given(k.proxyHeaders);
    if popped.OtherAuth? then Err(Own(TypeError))
    else if !popped.Basic? && inRequest.None? then Ok(k')
    else
      var forwarded :=
        if inRequest.Some? then
          Keep(Assigned(proxyHeaders, PROXY_AUTHORIZATION, inRequest.value), {Lower(AUTHORIZATION)})
        else if First(proxyHeaders, PROXY_AUTHORIZATION).Some? then Keep(proxyHeaders, {Lower(AUTHORIZATION)})
        else Assigned(proxyHeaders, PROXY_AUTHORIZATION, encode(popped.auth));
      Ok(k'.(proxyHeaders := Some(forwarded), middlewares := [ForwardProxyAuth] + k.middlewares))
  }

  function Normalized(k: Kwargs, defaultAuth: Option<BasicAuth>, encode: BasicAuth -> string): Result<Kwargs, Exn> {
    match NormalizedAuth(k, encode)
    case Err(e) => Err(e)
    case Ok(k') => NormalizedProxyAuth(k', defaultAuth, encode)
  }

  /** A mutable multidict. */
  class CIMultiDict {
    var items: seq<Field>

    constructor (source: seq<Field>)
      ensures items == source
    {
      items := source;
    }

    method Put(name: string, value: string)
      modifies this
      ensures items == Assigned(old(items), name, value)
    {
      items := Assigned(items, name, value);
    }

    method Add(name: string, value: string)
      modifies this
      ensures items == old(items) + [(name, value)]
    {
      items := items + [(name, value)];
    }

    method PopAll(name: string)
      modifies this
      ensures items == Keep(old(items), {Lower(name)})
    {
      items := Keep(items, {Lower(name)});
    }
  }

  /** The keyword dict of one _make_req call; header mappings are shared with the caller. */
  class RequestKwargs {
    var auth: AuthArg
    var proxyAuth: AuthArg
    var proxy: ProxyArg
    var headers: CIMultiDict?
    var proxyHeaders: CIMultiDict?
    var middlewares: seq<Middleware>
    var data: Option<Data>
    var traceContext: Option<TraceContext>

    /** What `**kwargs` passes on: a snapshot. */
    function View(): Kwargs
      reads this, headers, proxyHeaders
    {
      Kwargs(auth, proxyAuth, proxy,
             if headers == null then None else Some(headers.items),
             if proxyHeaders == null then None else Some(proxyHeaders.items),
             middlewares, data, traceContext)
    }

    /** What a callee with `**kwargs` of its own receives: a new dict with the same values. */
    method Unpacked() returns (own: RequestKwargs)
      ensures fresh(own) && own.View() == View()
      ensures own.headers == headers && own.proxyHeaders == proxyHeaders
    {
      own := new RequestKwargs;
      own.auth, own.proxyAuth, own.proxy := auth, proxyAuth, proxy;
      own.headers, own.proxyHeaders := headers, proxyHeaders;
      own.middlewares, own.data, own.traceContext := middlewares, data, traceContext;
    }

    /** The `auth` half: a given auth becomes a header of a fresh copy. */
    method PopAuth(encode: BasicAuth -> string) returns (error: Option<Exn>)
      modifies this
      ensures proxyHeaders == old(proxyHeaders) && (headers == old(headers) || fresh(headers))
      ensures match error
              case None => NormalizedAuth(old(View()), encode) == Ok(View())
              case Some(e) => NormalizedAuth(old(View()), encode) == Err(e)
      ensures error == if old(auth).OtherAuth? then Some(Own(TypeError)) else None
    {
      var given := auth;
      auth := NotGiven;
      if given.OtherAuth? {
        return Some(Own(TypeError));
      }
      if given.Basic? {
        var copy := new CIMultiDict(if headers == null then [] else headers.items);
        if First(copy.items, AUTHORIZATION).None? {
          copy.Put(AUTHORIZATION, encode(given.auth));
        }
        headers := copy;
      }
      return None;
    }

    /** The `proxy_auth` half: the credential goes to a fresh copy of the proxy headers. */
    method PopProxyAuth(defaultAuth: Option<BasicAuth>, encode: BasicAuth -> string) returns (error: Option<Exn>)
      modifies this
      ensures headers == old(headers) && (proxyHeaders == old(proxyHeaders) || fresh(proxyHeaders))
      ensures match error
              case None => NormalizedProxyAuth(old(View()), defaultAuth, encode) == Ok(View())
              case Some(e) => NormalizedProxyAuth(old(View()), defaultAuth, encode) == Err(e)
    {
      var popped := if proxyAuth.NotGiven? then (if defaultAuth.Some? then Basic(defaultAuth.value) else NoAuth)
                    else proxyAuth;
      proxyAuth := NotGiven;
      if popped.OtherAuth? {
        return Some(Own(TypeError));
      }
      var inRequest := First(if headers == null then [] else headers.items, PROXY_AUTHORIZATION);
      if !popped.Basic? && inRequest.None? {
        return None;
      }
      var copy := new CIMultiDict(if proxyHeaders == null then [] else proxyHeaders.items);
      if inRequest.Some? {
        copy.Put(PROXY_AUTHORIZATION, inRequest.value);
        copy.PopAll(AUTHORIZATION);
      } else if First(copy.items, PROXY_AUTHORIZATION).Some? {
        copy.PopAll(AUTHORIZATION);
      } else {
        copy.Put(PROXY_AUTHORIZATION, encode(popped.auth));
      }
      proxyHeaders := copy;
      middlewares := [ForwardProxyAuth] + middlewares;
      return None;
    }

    /** _normalize_auth_kwargs. Only this dict changes: the caller's header objects stay as they were,
        because every change goes to a fresh copy. */
    method NormalizeAuth(defaultAuth: Option<BasicAuth>, encode: BasicAuth -> string) returns (error: Option<Exn>)
      modifies this
      ensures match error
              case None => Normalized(old(View()), defaultAuth, encode) == Ok(View())
              case Some(e) => Normalized(old(View()), defaultAuth, encode) == Err(e)
      ensures error == if old(auth).OtherAuth? || old(proxyAuth).OtherAuth? then Some(Own(TypeError)) else None
    {
      error := PopAuth(encode);
      if error.None? {
        error := PopProxyAuth(defaultAuth, encode);
      }
    }
  }

  // ---- what the proxy and the target see -----------------------------------------------------------

  /** _forward_plain_http_proxy_auth on the headers of a plain-HTTP request through a proxy. */
  function ForwardedHeaders(headers: seq<Field>, proxyHeaders: seq<Field>): seq<Field> {
    var credential := First(proxyHeaders, PROXY_AUTHORIZATION);
    if credential.Some? && First(headers, PROXY_AUTHORIZATION).None?
    then Assigned(headers, PROXY_AUTHORIZATION, credential.value)
    else headers
  }

  /** The request headers after the middleware stack; user middlewares leave them alone. */
  function ThroughMiddlewares(stack: seq<Middleware>, headers: seq<Field>, proxyHeaders: seq<Field>): seq<Field> {
    if stack == [] then headers
    else ThroughMiddlewares(stack[1..],
                            if stack[0].ForwardProxyAuth? then ForwardedHeaders(headers, proxyHeaders) else headers,
                            proxyHeaders)
  }

  /** The headers that reach a plain-HTTP proxy. */
  function AtProxy(k: Kwargs): seq<Field> {
    ThroughMiddlewares(k.middlewares, Given(k.headers), Given(k.proxyHeaders))
  }

  const HOP_BY_HOP: set<string> := {
    "connection", "keep-alive", "proxy-authenticate", "proxy-authorization", "proxy-connection",
    "te", "trailer", "transfer-encoding", "upgrade", "host"}

  const HOP_BY_HOP_RESPONSE: set<string> := HOP_BY_HOP + {"content-length"}

  /** _relay_headers */
  method RelayHeaders(source: seq<Field>, drop: set<string>) returns (relayed: CIMultiDict)
    ensures fresh(relayed) && relayed.items == Keep(source, drop)
  {
    relayed := new CIMultiDict([]);
    for i := 0 to |source|
      invariant fresh(relayed)
      invariant relayed.items == Keep(source[..i], drop)
    {
      KeepConcat(source[..i], [source[i]], drop);
      assert source[..i + 1] == source[..i] + [source[i]];
      assert [source[i]][1..] == [];
      if Lower(source[i].0) !in drop {
        relayed.Add(source[i].0, source[i].1);
      }
    }
    assert source[..|source|] == source;
  }

  datatype ProxyRequest = ProxyRequest(verb: string, url: string, headers: seq<Field>, body: Body)

  datatype UpstreamResponse = UpstreamResponse(status: int, reason: string, headers: seq<Field>, body: Body)

  datatype ProxyReply = AuthenticationRequired | Relayed(response: UpstreamResponse)

  /** The mock proxy: it records, then authenticates, then forwards and relays what the target answers. */
  class MockProxyService {
    var history: seq<ProxyRequest>
    const expectedAuth: Option<string>

    constructor (expectedAuth: Option<string>)
      ensures history == [] && this.expectedAuth == expectedAuth
    {
      history, this.expectedAuth := [], expectedAuth;
    }

    method Handle(request: ProxyRequest, upstream: ProxyRequest -> UpstreamResponse) returns (reply: ProxyReply)
      modifies this
      ensures history == old(history) + [request]
      ensures reply == ProxyAnswer(expectedAuth, request, upstream)
    {
      history := history + [request];
      if expectedAuth.Some? {
        if First(request.headers, PROXY_AUTHORIZATION) != expectedAuth {
          return AuthenticationRequired;
        }
      }
      var forwarded := RelayHeaders(request.headers, HOP_BY_HOP);
      var response := upstream(request.(headers := forwarded.items));
      var relayed := RelayHeaders(response.headers, HOP_BY_HOP_RESPONSE);
      return Relayed(response.(headers := relayed.items));
    }
  }

  function ProxyAnswer(expected: Option<string>, request: ProxyRequest, upstream: ProxyRequest -> UpstreamResponse): ProxyReply {
    if expected.Some? && First(request.headers, PROXY_AUTHORIZATION) != expected then AuthenticationRequired
    else
      var response := upstream(request.(headers := Keep(request.headers, HOP_BY_HOP)));
      Relayed(response.(headers := Keep(response.headers, HOP_BY_HOP_RESPONSE)))
  }

  /** What comes back through the proxy: status, reason and body of the target's response to the request without its
      hop-by-hop fields, and every field of it but those of the response list. */
  lemma ResponseIsRelayed(expected: Option<string>, request: ProxyRequest, upstream: ProxyRequest -> UpstreamResponse,
                          name: string)
    requires ProxyAnswer(expected, request, upstream).Relayed?
    ensures var answer := upstream(request.(headers := Keep(request.headers, HOP_BY_HOP)));
            var back := ProxyAnswer(expected, request, upstream).response;
            && back.status == answer.status && back.reason == answer.reason && back.body == answer.body
            && First(back.headers, name) == (if Lower(name) in HOP_BY_HOP_RESPONSE then None else First(answer.headers, name))
            && Keep(back.headers, HOP_BY_HOP_RESPONSE) == back.headers
  {
    var answer := upstream(request.(headers := Keep(request.headers, HOP_BY_HOP)));
    FirstKept(answer.headers, name, HOP_BY_HOP_RESPONSE);
    KeepTwice(answer.headers, HOP_BY_HOP_RESPONSE);
  }

  // ---- end to end ----------------------------------------------------------------------------------

  /** The arguments that are accepted: each auth is a BasicAuth, None, or not given. */
  predicate AcceptedAuth(k: Kwargs) {
    !k.auth.OtherAuth? && !k.proxyAuth.OtherAuth?
  }

  /** Exactly these are normalised; any other is a TypeError. */
  lemma NormalizedIff(k: Kwargs, defaultAuth: Option<BasicAuth>, encode: BasicAuth -> string)
    ensures Normalized(k, defaultAuth, encode).Ok? <==> AcceptedAuth(k)
    ensures !AcceptedAuth(k) ==> Normalized(k, defaultAuth, encode) == Err(Own(TypeError))
  {
  }

  /** The proxy auth in force: the given one, also when it is None, and otherwise the client's own. */
  function AuthInForce(k: Kwargs, defaultAuth: Option<BasicAuth>): Option<BasicAuth> {
    match k.proxyAuth
    case NotGiven => defaultAuth
    case Basic(auth) => Some(auth)
    case _ => None
  }

  /** The credential a plain-HTTP proxy is meant to see: the request's own header first; otherwise, when some
      proxy auth is in force, the one in proxy_headers, then the encoded auth. */
  function ProxyCredential(k: Kwargs, defaultAuth: Option<BasicAuth>, encode: BasicAuth -> string): Option<string> {
    var inRequest := First(Given(k.headers), PROXY_AUTHORIZATION);
    var inProxyHeaders := First(Given(k.proxyHeaders), PROXY_AUTHORIZATION);
    var auth := AuthInForce(k, defaultAuth);
    if inRequest.Some? then inRequest
    else if auth.None? then None
    else if inProxyHeaders.Some? then inProxyHeaders
    else Some(encode(auth.value))
  }

  /** The request headers with the encoded auth added when the caller gave one and no header of that name. */
  function WithAuthorization(k: Kwargs, encode: BasicAuth -> string): seq<Field> {
    var headers := Given(k.headers);
    if k.auth.Basic? && First(headers, AUTHORIZATION).None? then headers + [(AUTHORIZATION, encode(k.auth.auth))]
    else headers
  }

  lemma {:induction false} AssignedAbsent(fs: seq<Field>, name: string, value: string)
    requires First(fs, name).None?
    ensures Assigned(fs, name, value) == fs + [(name, value)]
  {
    if fs != [] {
      AssignedAbsent(fs[1..], name, value);
    }
  }

  lemma {:induction false} UserStackLeavesHeaders(stack: seq<Middleware>, headers: seq<Field>, proxyHeaders: seq<Field>)
    requires ForwardProxyAuth !in stack
    ensures ThroughMiddlewares(stack, headers, proxyHeaders) == headers
  {
    if stack != [] {
      UserStackLeavesHeaders(stack[1..], headers, proxyHeaders);
    }
  }

  lemma NamesDiffer()
    ensures !SameName(AUTHORIZATION, PROXY_AUTHORIZATION)
    ensures Lower(PROXY_AUTHORIZATION) == "proxy-authorization" && Lower(AUTHORIZATION) == "authorization"
  {
    assert |Lower(AUTHORIZATION)| == 13 && |Lower(PROXY_AUTHORIZATION)| == 19;
    assert Lower(PROXY_AUTHORIZATION) == "proxy-authorization";
    assert Lower(AUTHORIZATION) == "authorization";
  }

  /** What reaches the proxy: the caller's headers and authorization, and one credential by precedence. */
  lemma ProxySees(k: Kwargs, defaultAuth: Option<BasicAuth>, encode: BasicAuth -> string)
    requires ForwardProxyAuth !in k.middlewares
    requires AcceptedAuth(k)
    ensures Normalized(k, defaultAuth, encode).Ok?
    ensures var sent := Normalized(k, defaultAuth, encode).value;
            var base := WithAuthorization(k, encode);
            var credential := ProxyCredential(k, defaultAuth, encode);
            && First(AtProxy(sent), PROXY_AUTHORIZATION) == credential
            && AtProxy(sent) == base + (if credential.Some? && First(Given(k.headers), PROXY_AUTHORIZATION).None?
                                        then [(PROXY_AUTHORIZATION, credential.value)] else [])
            && sent.auth.NotGiven? && sent.proxyAuth.NotGiven?
  {
    NamesDiffer();
    NormalizedIff(k, defaultAuth, encode);
    var k1 := NormalizedAuth(k, encode).value;
    var sent := Normalized(k, defaultAuth, encode).value;
    var base, own := WithAuthorization(k, encode), Given(k.headers);
    var inRequest := First(own, PROXY_AUTHORIZATION);
    if k.auth.Basic? && First(own, AUTHORIZATION).None? {
      AssignedAbsent(own, AUTHORIZATION, encode(k.auth.auth));
      FirstConcat(own, [(AUTHORIZATION, encode(k.auth.auth))], PROXY_AUTHORIZATION);
    }
    assert Given(k1.headers) == base && First(base, PROXY_AUTHORIZATION) == inRequest;
    var popped := PoppedProxyAuth(k, defaultAuth);
    assert popped == PoppedProxyAuth(k1, defaultAuth);
    if !popped.Basic? && inRequest.None? {
      UserStackLeavesHeaders(k.middlewares, base, Given(sent.proxyHeaders));
      assert base + [] == base;
    } else {
      var ph := Given(k.proxyHeaders);
      var credential := ProxyCredential(k, defaultAuth, encode);
      assert First(Given(sent.proxyHeaders), PROXY_AUTHORIZATION) == credential by {
        ForwardedCredential(ph, credential.value);
      }
      assert sent.middlewares[1..] == k.middlewares;
      var forwarded := ForwardedHeaders(base, Given(sent.proxyHeaders));
      UserStackLeavesHeaders(k.middlewares, forwarded, Given(sent.proxyHeaders));
      if inRequest.None? {
        AssignedAbsent(base, PROXY_AUTHORIZATION, credential.value);
        FirstConcat(base, [(PROXY_AUTHORIZATION, credential.value)], PROXY_AUTHORIZATION);
      } else {
        assert base + [] == base;
      }
    }
  }

  /** What normalising changes: both auths are gone; a given auth becomes the last header unless one of that name is there;
      and when there is a credential for the proxy, the forwarding middleware comes first and the proxy headers hold it.
      There an Authorization gives way to a credential that was itself given as a header; all other fields stay, in order. */
  lemma NormalizedChanges(k: Kwargs, defaultAuth: Option<BasicAuth>, encode: BasicAuth -> string)
    requires AcceptedAuth(k)
    ensures Normalized(k, defaultAuth, encode).Ok?
    ensures var sent, own := Normalized(k, defaultAuth, encode).value, Given(k.headers);
            var given, put := Given(k.proxyHeaders), Given(sent.proxyHeaders);
            var credential := ProxyCredential(k, defaultAuth, encode);
            var asHeader := First(own, PROXY_AUTHORIZATION).Some? || First(given, PROXY_AUTHORIZATION).Some?;
            var both := {"authorization", "proxy-authorization"};
            && sent == k.(auth := NotGiven, proxyAuth := NotGiven, headers := sent.headers,
                          proxyHeaders := sent.proxyHeaders, middlewares := sent.middlewares)
            && sent.headers == (if !k.auth.Basic? then k.headers
                                else if First(own, AUTHORIZATION).Some? then Some(own)
                                else Some(own + [(AUTHORIZATION, encode(k.auth.auth))]))
            && (credential.None? ==> sent.proxyHeaders == k.proxyHeaders && sent.middlewares == k.middlewares)
            && (credential.Some? ==>
                  && sent.middlewares == [ForwardProxyAuth] + k.middlewares
                  && sent.proxyHeaders.Some? && First(put, PROXY_AUTHORIZATION) == credential
                  && First(put, AUTHORIZATION) == (if asHeader then None else First(given, AUTHORIZATION))
                  && Keep(put, both) == Keep(given, both))
  {
    hide NormalizedAuth, NormalizedProxyAuth, Keep, First, Assigned;
    NormalizedIff(k, defaultAuth, encode);
    AuthHalf(k, encode);
    var k1 := NormalizedAuth(k, encode).value;
    ProxyHalf(k1, defaultAuth, encode);
    assert ProxyCredential(k1, defaultAuth, encode) == ProxyCredential(k, defaultAuth, encode);
  }

  lemma AuthHalf(k: Kwargs, encode: BasicAuth -> string)
    requires !k.auth.OtherAuth?
    ensures NormalizedAuth(k, encode).Ok?
    ensures var k1, own := NormalizedAuth(k, encode).value, Given(k.headers);
            && k1 == k.(auth := NotGiven, headers := k1.headers)
            && k1.headers == (if !k.auth.Basic? then k.headers
                              else if First(own, AUTHORIZATION).Some? then Some(own)
                              else Some(own + [(AUTHORIZATION, encode(k.auth.auth))]))
            && First(Given(k1.headers), PROXY_AUTHORIZATION) == First(own, PROXY_AUTHORIZATION)
  {
    NamesDiffer();
    var own := Given(k.headers);
    if k.auth.Basic? && First(own, AUTHORIZATION).None? {
      AssignedAbsent(own, AUTHORIZATION, encode(k.auth.auth));
      FirstConcat(own, [(AUTHORIZATION, encode(k.auth.auth))], PROXY_AUTHORIZATION);
    }
  }

  lemma ProxyHalf(k: Kwargs, defaultAuth: Option<BasicAuth>, encode: BasicAuth -> string)
    requires !k.proxyAuth.OtherAuth?
    ensures NormalizedProxyAuth(k, defaultAuth, encode).Ok?
    ensures var sent, own := NormalizedProxyAuth(k, defaultAuth, encode).value, Given(k.headers);
            var given, put := Given(k.proxyHeaders), Given(sent.proxyHeaders);
            var credential := ProxyCredential(k, defaultAuth, encode);
            var asHeader := First(own, PROXY_AUTHORIZATION).Some? || First(given, PROXY_AUTHORIZATION).Some?;
            var both := {"authorization", "proxy-authorization"};
            && sent == k.(proxyAuth := NotGiven, proxyHeaders := sent.proxyHeaders, middlewares := sent.middlewares)
            && (credential.None? ==> sent.proxyHeaders == k.proxyHeaders && sent.middlewares == k.middlewares)
            && (credential.Some? ==>
                  && sent.middlewares == [ForwardProxyAuth] + k.middlewares
                  && sent.proxyHeaders.Some? && First(put, PROXY_AUTHORIZATION) == credential
                  && First(put, AUTHORIZATION) == (if asHeader then None else First(given, AUTHORIZATION))
                  && Keep(put, both) == Keep(given, both))
  {
    hide Keep, First, Assigned;
    var credential := ProxyCredential(k, defaultAuth, encode);
    if credential.Some? {
      PutCredential(Given(k.proxyHeaders), credential.value);
    }
  }

  /** A credential put among the proxy headers, with and without dropping Authorization. */
  lemma PutCredential(given: seq<Field>, value: string)
    ensures var put, both := Assigned(given, PROXY_AUTHORIZATION, value), {"authorization", "proxy-authorization"};
            var dropped, kept := Keep(put, {Lower(AUTHORIZATION)}), Keep(given, {Lower(AUTHORIZATION)});
            && First(put, PROXY_AUTHORIZATION) == First(dropped, PROXY_AUTHORIZATION) == Some(value)
            && First(kept, PROXY_AUTHORIZATION) == First(given, PROXY_AUTHORIZATION)
            && First(put, AUTHORIZATION) == First(given, AUTHORIZATION)
            && First(dropped, AUTHORIZATION) == First(kept, AUTHORIZATION) == None
            && Keep(put, both) == Keep(dropped, both) == Keep(kept, both) == Keep(given, both)
  {
    NamesDiffer();
    var put, both := Assigned(given, PROXY_AUTHORIZATION, value), {"authorization", "proxy-authorization"};
    ForwardedCredential(given, value);
    AssignedReads(given, PROXY_AUTHORIZATION, value, AUTHORIZATION);
    FirstKept(put, AUTHORIZATION, {Lower(AUTHORIZATION)});
    FirstKept(given, AUTHORIZATION, {Lower(AUTHORIZATION)});
    KeepMore(put, {Lower(AUTHORIZATION)}, both);
    KeepMore(given, {Lower(AUTHORIZATION)}, both);
    KeepMore(put, {Lower(PROXY_AUTHORIZATION)}, both);
    KeepMore(given, {Lower(PROXY_AUTHORIZATION)}, both);
  }

  /** Dropping more names after fewer is dropping them at once. */
  lemma {:induction false} KeepMore(fs: seq<Field>, few: set<string>, many: set<string>)
    requires few <= many
    ensures Keep(Keep(fs, few), many) == Keep(fs, many)
  {
    if fs != [] {
      KeepMore(fs[1..], few, many);
      var rest := Keep(fs[1..], few);
      assert ([fs[0]] + rest)[1..] == rest;
      assert [] + rest == rest;
    }
  }

  lemma ForwardedCredential(ph: seq<Field>, value: string)
    ensures First(Assigned(ph, PROXY_AUTHORIZATION, value), PROXY_AUTHORIZATION) == Some(value)
    ensures First(Keep(Assigned(ph, PROXY_AUTHORIZATION, value), {Lower(AUTHORIZATION)}), PROXY_AUTHORIZATION) == Some(value)
    ensures First(Keep(ph, {Lower(AUTHORIZATION)}), PROXY_AUTHORIZATION) == First(ph, PROXY_AUTHORIZATION)
  {
    NamesDiffer();
    AssignedReads(ph, PROXY_AUTHORIZATION, value, PROXY_AUTHORIZATION);
    FirstKept(Assigned(ph, PROXY_AUTHORIZATION, value), PROXY_AUTHORIZATION, {Lower(AUTHORIZATION)});
    FirstKept(ph, PROXY_AUTHORIZATION, {Lower(AUTHORIZATION)});
  }

  /** What reaches the target through the mock proxy: the caller's fields and the authorization, in order and
      with duplicates, without the hop-by-hop names. The proxy credential never gets that far. */
  lemma TargetSees(k: Kwargs, defaultAuth: Option<BasicAuth>, encode: BasicAuth -> string, name: string)
    requires ForwardProxyAuth !in k.middlewares
    requires AcceptedAuth(k)
    ensures Normalized(k, defaultAuth, encode).Ok?
    ensures var sent := Normalized(k, defaultAuth, encode).value;
            var seen := Keep(AtProxy(sent), HOP_BY_HOP);
            var own := Given(k.headers);
            && seen == Keep(WithAuthorization(k, encode), HOP_BY_HOP)
            && (Lower(name) in HOP_BY_HOP ==> First(seen, name).None?)
            && First(seen, AUTHORIZATION) == (if First(own, AUTHORIZATION).Some? then First(own, AUTHORIZATION)
                                              else if k.auth.Basic? then Some(encode(k.auth.auth)) else None)
  {
    hide Normalized, AtProxy, WithAuthorization, ProxyCredential;
    NamesDiffer();
    ProxySees(k, defaultAuth, encode);
    var sent := Normalized(k, defaultAuth, encode).value;
    var base := WithAuthorization(k, encode);
    var credential := ProxyCredential(k, defaultAuth, encode);
    if credential.Some? {
      var extra: seq<Field> := [(PROXY_AUTHORIZATION, credential.value)];
      KeepConcat(base, extra, HOP_BY_HOP);
      assert extra[1..] == [];
    }
    assert base + [] == base;
    FirstKept(AtProxy(sent), name, HOP_BY_HOP);
    FirstKept(base, AUTHORIZATION, HOP_BY_HOP);
    AuthorizationOf(k, encode);
  }

  lemma AuthorizationOf(k: Kwargs, encode: BasicAuth -> string)
    ensures var own := Given(k.headers);
            First(WithAuthorization(k, encode), AUTHORIZATION)
            == (if First(own, AUTHORIZATION).Some? then First(own, AUTHORIZATION)
                else if k.auth.Basic? then Some(encode(k.auth.auth)) else None)
  {
    if k.auth.Basic? {
      FirstConcat(Given(k.headers), [(AUTHORIZATION, encode(k.auth.auth))], AUTHORIZATION);
    }
  }

  /** A proxy that requires a credential forwards exactly the requests whose credential by precedence is it, and one that
      requires none forwards them all. */
  lemma ProxyForwardsIff(k: Kwargs, defaultAuth: Option<BasicAuth>, encode: BasicAuth -> string, required: Option<string>,
                         request: ProxyRequest, upstream: ProxyRequest -> UpstreamResponse)
    requires ForwardProxyAuth !in k.middlewares
    requires AcceptedAuth(k)
    ensures Normalized(k, defaultAuth, encode).Ok?
    ensures var sent := Normalized(k, defaultAuth, encode).value;
            ProxyAnswer(required, request.(headers := AtProxy(sent)), upstream).Relayed? <==>
            required.None? || ProxyCredential(k, defaultAuth, encode) == required
  {
    ProxySees(k, defaultAuth, encode);
  }

  /** A credential given only in proxy_headers reaches a plain-HTTP proxy iff some proxy auth is in force:
      without one the forwarding middleware is not installed. */
  lemma ProxyHeadersAloneAreNotForwarded(k: Kwargs, defaultAuth: Option<BasicAuth>, encode: BasicAuth -> string)
    requires ForwardProxyAuth !in k.middlewares
    requires AcceptedAuth(k)
    requires First(Given(k.headers), PROXY_AUTHORIZATION).None?
    requires First(Given(k.proxyHeaders), PROXY_AUTHORIZATION).Some?
    ensures Normalized(k, defaultAuth, encode).Ok?
    ensures var sent := Normalized(k, defaultAuth, encode).value;
            First(AtProxy(sent), PROXY_AUTHORIZATION) == First(Given(k.proxyHeaders), PROXY_AUTHORIZATION)
            <==> AuthInForce(k, defaultAuth).Some?
  {
    ProxySees(k, defaultAuth, encode);
  }

  /** Such a request: a credential in proxy_headers and nothing else. It is not on the request that reaches the proxy. */
  lemma ProxyHeadersAloneInstance(encode: BasicAuth -> string)
    ensures var credential: Field := (PROXY_AUTHORIZATION, "Basic dTpw");
            var k := Kwargs(NotGiven, NotGiven, Proxy(Some("http://proxy")), None, Some([credential]), [], None, None);
            Normalized(k, None, encode) == Ok(k) && AtProxy(k) == []
  {
  }
}

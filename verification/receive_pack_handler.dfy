/** internal/handlers/receive_pack/handler.go: the push handler of the
    handler-per-route snapshot. It is registered under `git-receive-pack/`,
    reports every failure as 406, and sets the result content type only
    once the session is open. */
module ReceivePackHandler {
  import opened Go
  import opened GoStrings
  import opened Transport
  import opened Http
  import opened SmartHttp
  import opened Paths
  import PackReceive

  /** `fmt.Sprintf("%v/", ReceivePackPath)`, the route and the suffix cut
      from the path. */
  const HandlerPath := ReceivePackPath + "/"

  /** The address of the repository: the path without the route suffix. */
  function AddressOf(request: Request): string
  {
    RepoUrl(request.tls, request.host, TrimSuffix(request.path, HandlerPath))
  }

  /** After the result content type is set: run `pack.Receive`, whose run
      is `ran`, and report its error as 406 under a plain content type. */
  function Push(typed: seq<Event>, ran: Run): (r: Response)
    requires ran.Finished?
    ensures ran.err.Nil? ==> r == Served(StatusOK, typed + ran.trace)
    ensures ran.err.Error? ==> ServedError(r, StatusNotAcceptable, ran.err.msg)
    ensures Sessions(r.trace) == Sessions(typed) + Sessions(ran.trace)
    ensures Encoded(r.trace) == Encoded(typed) + Encoded(ran.trace)
    ensures RequestRefs in r.trace <==> RequestRefs in typed || RequestRefs in ran.trace
    ensures ReadsBody(r.trace) <==> ReadsBody(typed) || ReadsBody(ran.trace)
    ensures RunsPack(r.trace) <==> RunsPack(typed) || RunsPack(ran.trace)
  {
    if ran.err.Error? then PlainError(Chain(typed, ran.trace), StatusNotAcceptable, ran.err.msg)
    else Served(StatusOK, Chain(typed, ran.trace))
  }

  /** `ServeHTTP`: set the headers and build the address from the path
      without the route suffix; an address the transport rejects and a
      session that fails to open are 406, otherwise push. The handler never
      panics, never asks for references, and answers only 200 or 406. */
  function ServeHTTP(request: Request, o: Oracle): (r: Response)
    ensures r.Served? && (r.status == StatusOK || r.status == StatusNotAcceptable)
    ensures RequestRefs !in r.trace
  {
    match NewEndpoint(o, AddressOf(request))
    case Err(m) => HttpErrorAfter(PlainHeaded(), StatusNotAcceptable, m)
    case Ok(transportEndpoint) =>
      var started := NewSession(o, ReceivePackSession, transportEndpoint);
      var t := Chain(PlainHeaded(), started.trace);
      if started.err.Error? then HttpErrorAfter(t, StatusNotAcceptable, started.err.msg)
      else
        var typed := Then(t, SetHeader(ContentTypeHeaderKey, ContentType(ReceivePackPath, false)));
        Push(typed, PackReceive.Receive(started.session, o))
  }

  /** A request succeeds exactly when every step of the push succeeds:
      the address, the session, the body, the capability, the report and
      its encoding. */
  lemma ServeSucceeds(request: Request, o: Oracle)
    ensures ServeHTTP(request, o).status == StatusOK <==>
      && o.endpoint(AddressOf(request)).Nil? && o.openReceive.Ok?
      && ExchangeSucceeds(o, ReceivePackSession, Ptr(o.openReceive.value)) && o.encode.Nil?
  {
    var url := AddressOf(request);
    if o.endpoint(url).Nil? {
      assert NewEndpoint(o, url) == Ok(Endpoint(url));
      var started := NewSession(o, ReceivePackSession, Endpoint(url));
      var t := Chain(PlainHeaded(), started.trace);
      if o.openReceive.Ok? {
        var typed := Then(t, SetHeader(ContentTypeHeaderKey, ContentType(ReceivePackPath, false)));
        assert ServeHTTP(request, o) == Push(typed, PackReceive.Receive(started.session, o));
        PushSucceeds(typed, started.session, o);
      }
    }
  }

  /** The push answers 200 exactly when the exchange and the encoding
      succeed. */
  lemma PushSucceeds(typed: seq<Event>, session: Ptr<Session>, o: Oracle)
    ensures Push(typed, PackReceive.Receive(session, o)).status == StatusOK <==>
      ExchangeSucceeds(o, ReceivePackSession, session) && o.encode.Nil?
  {
    var ran := PackReceive.Receive(session, o);
    assert ran.err.Nil? <==> ExchangeSucceeds(o, ReceivePackSession, session) && o.encode.Nil?;
  }

  /** Once the address is accepted, the handler opens exactly one push
      session, and reads the body exactly when it opened. */
  lemma ServeEffects(request: Request, o: Oracle)
    ensures var resp := ServeHTTP(request, o);
      && Sessions(resp.trace) == (if o.endpoint(AddressOf(request)).Nil? then [ReceivePackSession] else [])
      && (ReadsBody(resp.trace) <==> o.endpoint(AddressOf(request)).Nil? && o.openReceive.Ok?)
  {
    var url := AddressOf(request);
    if o.endpoint(url).Nil? {
      assert NewEndpoint(o, url) == Ok(Endpoint(url));
      var started := NewSession(o, ReceivePackSession, Endpoint(url));
      var t := Chain(PlainHeaded(), started.trace);
      assert Sessions(t) == [ReceivePackSession] && !ReadsBody(t);
      if o.openReceive.Ok? {
        var typed := Then(t, SetHeader(ContentTypeHeaderKey, ContentType(ReceivePackPath, false)));
        var ran := PackReceive.Receive(started.session, o);
        assert ServeHTTP(request, o) == Push(typed, ran);
      } else {
        assert ServeHTTP(request, o) == HttpErrorAfter(t, StatusNotAcceptable, o.openReceive.msg);
      }
    }
  }

  /** An address the transport rejects is 406 with the transport's message,
      before any session is opened. */
  lemma ServeRejected(request: Request, o: Oracle)
    requires o.endpoint(AddressOf(request)).Error?
    ensures var resp := ServeHTTP(request, o);
      ServedError(resp, StatusNotAcceptable, o.endpoint(AddressOf(request)).msg) && Encoded(resp.trace) == []
  {
  }

  /** A session that fails to open is 406 with the transport's message,
      before the body is read. */
  lemma ServeOpenFailure(request: Request, o: Oracle)
    requires o.endpoint(AddressOf(request)).Nil? && o.openReceive.Err?
    ensures var resp := ServeHTTP(request, o);
      && ServedError(resp, StatusNotAcceptable, o.openReceive.msg)
      && OpenSession(ReceivePackSession, AddressOf(request)) in resp.trace
      && Encoded(resp.trace) == [] && !RunsPack(resp.trace)
  {
    var url := AddressOf(request);
    assert NewEndpoint(o, url) == Ok(Endpoint(url));
    var started := NewSession(o, ReceivePackSession, Endpoint(url));
    var t := Chain(PlainHeaded(), started.trace);
    assert ServeHTTP(request, o) == HttpErrorAfter(t, StatusNotAcceptable, o.openReceive.msg);
    assert ServeHTTP(request, o).trace[|PlainHeaded()|] == OpenSession(ReceivePackSession, url);
  }

  /** The headers once the session is open and the content type is set
      after it: no write yet, the content type and `Cache-Control` in
      place. */
  lemma TypedAfterSession(started: seq<Event>, contentType: string)
    requires Quiet(started) && !Reaches(started, AtWrite)
    ensures var typed := Then(Chain(PlainHeaded(), started), SetHeader(ContentTypeHeaderKey, contentType));
      && !Reaches(typed, AtWrite)
      && HeaderAfter(typed, ContentTypeHeaderKey, "") == contentType
      && HeaderAfter(typed, CacheControlHeaderKey, "") == NoCacheValue
  {
    var e := SetHeader(ContentTypeHeaderKey, contentType);
    var t := Chain(PlainHeaded(), started);
    QuietTail(PlainHeaded(), started, CacheControlHeaderKey, AtWrite, "");
    HeaderAfterThen(t, e, ContentTypeHeaderKey, "");
    HeaderAfterThen(t, e, CacheControlHeaderKey, "");
  }

  /** Behind headers that opened the session at `url` and set the result
      content type, a push through a session that meets the design's
      contract is served as the design requires. */
  lemma PushServed(typed: seq<Event>, session: Ptr<Session>, url: string, o: Oracle)
    requires Healthy(o) && session == Ptr(o.openReceive.value)
    requires !Reaches(typed, AtWrite) && RequestRefs !in typed && !ReadsBody(typed)
    requires Sessions(typed) == [ReceivePackSession] && Encoded(typed) == [] && OpenSession(ReceivePackSession, url) in typed
    requires HeaderAfter(typed, ContentTypeHeaderKey, "") == ContentType(ReceivePackPath, false)
    requires HeaderAfter(typed, CacheControlHeaderKey, "") == NoCacheValue
    ensures ServedPack(o, ReceivePackSession, url, Push(typed, PackReceive.Receive(session, o)))
  {
    HealthyAnswers(o, ReceivePackSession);
    var ran := PackReceive.Receive(session, o);
    PackReceive.ReceiveMeetsContract(session, o);
    Concat(typed, ran.trace);
    EncodedReaches(ran.trace);
    QuietTail(typed, ran.trace, ContentTypeHeaderKey, AtWrite, "");
    QuietTail(typed, ran.trace, CacheControlHeaderKey, AtWrite, "");
  }

  /** A healthy gateway serves the push to the repository at the path
      without `git-receive-pack/`, with the result content type in place
      when the report is written. */
  lemma ServePush(request: Request, o: Oracle)
    requires Healthy(o)
    ensures ServedPack(o, ReceivePackSession, AddressOf(request), ServeHTTP(request, o))
  {
    var url := AddressOf(request);
    assert NewEndpoint(o, url) == Ok(Endpoint(url));
    var started := NewSession(o, ReceivePackSession, Endpoint(url));
    var typed := Then(Chain(PlainHeaded(), started.trace), SetHeader(ContentTypeHeaderKey, ContentType(ReceivePackPath, false)));
    TypedAfterSession(started.trace, ContentType(ReceivePackPath, false));
    assert typed[|PlainHeaded()|] == OpenSession(ReceivePackSession, url);
    PushServed(typed, started.session, url, o);
  }
}

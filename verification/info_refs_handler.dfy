/** internal/handlers/info_refs/handler.go: the advertisement handler of the
    handler-per-route snapshot. It is registered under `info/refs/`, takes
    the service from the query, and ignores the error of opening the
    session: a session that failed to open is nil, and asking it for
    references panics. A failure to fetch the references ends the request
    silently; a failure to encode them is 400. */
module InfoRefsHandler {
  import opened Go
  import opened GoStrings
  import opened UrlQuery
  import opened Transport
  import opened Http
  import opened SmartHttp
  import opened Paths
  import Framing

  /** `fmt.Sprintf("%v/%v/", InfoPath, RefsPath)`, the route and the suffix
      cut from the path. */
  const HandlerPath := InfoPath + "/" + RefsPath + "/"

  /** The headers once the advertisement content type replaces the plain
      one. */
  function Typed(service: string): (t: seq<Event>)
    ensures HeadersOnly(t, ContentType(service, true))
  {
    Retyped(PlainHeaded(), ContentType(service, true))
  }

  /** The address of the repository: the path without the route suffix. */
  function AddressOf(request: Request): string
  {
    RepoUrl(request.tls, request.host, TrimSuffix(request.path, HandlerPath))
  }

  /** From the session on: a nil session panics; references that cannot be
      fetched end the request with nothing written; references that cannot
      be encoded are reported as 400 under a plain content type. */
  function Advertise(typed: seq<Event>, service: string, transportEndpoint: Endpoint, o: Oracle): (r: Response)
    ensures !ReadsBody(r.trace) || ReadsBody(typed)
    ensures !RunsPack(r.trace) || RunsPack(typed)
    ensures r.Aborted? <==> KindOf(service).None? || OpenAnswer(o, KindOf(service).value).Err?
    ensures r.Aborted? ==> r.fault == NilDereference && (RequestRefs in r.trace <==> RequestRefs in typed) && Encoded(r.trace) == Encoded(typed)
    ensures r.Served? ==> RequestRefs in r.trace
    ensures r.Served? && o.advertised.Err? ==> r.status == StatusOK && Encoded(r.trace) == Encoded(typed)
    ensures r.Served? && o.advertised.Ok? && o.encode.Error? ==> ServedError(r, StatusBadRequest, o.encode.msg)
  {
    // The open error is dropped: the next assignment to `err` overwrites it.
    var started := OpenService(service, transportEndpoint, o);
    var t := Chain(typed, started.trace);
    match started.session
    case Null => Aborted(NilDereference, t)
    case Ptr(_) => Fetch(t, service, o)
  }

  /** `AdvertisedReferencesContext` on an open session after the events
      `t`, then the framing and the encoding. */
  function Fetch(t: seq<Event>, service: string, o: Oracle): (r: Response)
    ensures r.Served? && RequestRefs in r.trace
    ensures ReadsBody(r.trace) == ReadsBody(t) && RunsPack(r.trace) == RunsPack(t)
    ensures o.advertised.Err? ==> r.status == StatusOK && Encoded(r.trace) == Encoded(t)
    ensures o.advertised.Ok? && o.encode.Error? ==> ServedError(r, StatusBadRequest, o.encode.msg)
  {
    var advertised := Framing.AdvertiseRefs(service, o);
    var done := Chain(t, advertised.trace);
    if o.advertised.Err? then Served(StatusOK, done)
    else if advertised.err.Error? then
      PlainError(done, StatusBadRequest, advertised.err.msg)
    else Served(StatusOK, done)
  }

  /** `ServeHTTP`: set the headers, build the address from the path without
      the route suffix; an address the transport rejects is 406, otherwise
      set the advertisement content type and advertise. The handler never
      reads the body or runs a pack operation, and answers only 200, 400 or
      406. */
  function ServeHTTP(request: Request, o: Oracle): (r: Response)
    ensures !ReadsBody(r.trace) && !RunsPack(r.trace)
    ensures r.Served? ==> r.status == StatusOK || r.status == StatusBadRequest || r.status == StatusNotAcceptable
  {
    var service := Get(request.query, "service");
    match NewEndpoint(o, AddressOf(request))
    case Err(m) => HttpErrorAfter(PlainHeaded(), StatusNotAcceptable, m)
    case Ok(transportEndpoint) => Advertise(Typed(service), service, transportEndpoint, o)
  }

  /** An address the transport rejects is 406 with the transport's message,
      before any session is opened. */
  lemma ServeRejected(request: Request, o: Oracle)
    requires o.endpoint(AddressOf(request)).Error?
    ensures var resp := ServeHTTP(request, o);
      && ServedError(resp, StatusNotAcceptable, o.endpoint(AddressOf(request)).msg)
      && Sessions(resp.trace) == [] && Encoded(resp.trace) == [] && RequestRefs !in resp.trace
  {
  }

  /** The handler panics on the nil session exactly when the service names
      no session kind or the session fails to open, once the address is
      accepted. */
  lemma ServeNilSession(request: Request, o: Oracle)
    requires o.endpoint(AddressOf(request)).Nil?
    ensures var service := Get(request.query, "service");
      var resp := ServeHTTP(request, o);
      (resp.Aborted? <==> KindOf(service).None? || OpenAnswer(o, KindOf(service).value).Err?)
      && (resp.Aborted? ==> resp.fault == NilDereference)
  {
  }

  /** References that cannot be fetched end the request with status 200 and
      nothing written, under the advertisement content type. */
  lemma ServeSilentRefsFailure(request: Request, o: Oracle)
    requires o.endpoint(AddressOf(request)).Nil?
    requires KindOf(Get(request.query, "service")).Some?
    requires OpenAnswer(o, KindOf(Get(request.query, "service")).value).Ok?
    requires o.advertised.Err?
    ensures var resp := ServeHTTP(request, o);
      && resp.Served? && resp.status == StatusOK
      && Encoded(resp.trace) == [] && RequestRefs in resp.trace
  {
  }

  /** References that cannot be encoded are 400 with the encoder's message. */
  lemma ServeEncodeFailure(request: Request, o: Oracle)
    requires o.endpoint(AddressOf(request)).Nil?
    requires KindOf(Get(request.query, "service")).Some?
    requires OpenAnswer(o, KindOf(Get(request.query, "service")).value).Ok?
    requires o.advertised.Ok? && o.encode.Error?
    ensures ServedError(ServeHTTP(request, o), StatusBadRequest, o.encode.msg)
  {
  }

  /** Once the session opens and the references are fetched and encoded,
      the session and the advertisement together meet the design's
      contract. */
  lemma OpenedAdvertisement(service: string, transportEndpoint: Endpoint, o: Oracle)
    requires KindOf(service).Some? && OpenAnswer(o, KindOf(service).value).Ok?
    requires o.advertised.Ok? && o.encode.Nil?
    ensures var ran := Finished(Nil, Chain(OpenService(service, transportEndpoint, o).trace, Framing.AdvertiseRefs(service, o).trace));
      AdvertiseContract(o, service, transportEndpoint, ran)
  {
  }

  /** Behind headers that set the advertisement content type, a healthy
      gateway advertises a known service's references. */
  lemma AdvertiseServed(typed: seq<Event>, service: string, url: string, o: Oracle)
    requires Healthy(o) && KindOf(service).Some?
    requires HeadersOnly(typed, ContentType(service, true))
    ensures ServedAdvertisement(o, service, url, Advertise(typed, service, Endpoint(url), o))
  {
    var ep := Endpoint(url);
    HealthyAnswers(o, KindOf(service).value);
    var started := OpenService(service, ep, o);
    var advertised := Framing.AdvertiseRefs(service, o);
    var ran := Finished(Nil, Chain(started.trace, advertised.trace));
    OpenedAdvertisement(service, ep, o);
    AdvertisementServedFrom(o, service, url, typed, ran);
    ChainAssociative(typed, started.trace, advertised.trace);
    assert Advertise(typed, service, ep, o) == Served(StatusOK, typed + ran.trace);
  }

  /** A healthy gateway serves the advertisement of a known service from
      the repository at the path without `info/refs/`. */
  lemma ServeAdvertisement(request: Request, o: Oracle)
    requires Healthy(o) && KindOf(Get(request.query, "service")).Some?
    ensures ServedAdvertisement(o, Get(request.query, "service"), AddressOf(request), ServeHTTP(request, o))
  {
    var service := Get(request.query, "service");
    assert NewEndpoint(o, AddressOf(request)) == Ok(Endpoint(AddressOf(request)));
    AdvertiseServed(Typed(service), service, AddressOf(request), o);
  }

  /** A path `<repo>/info/refs/` addresses `<repo>/`, trailing slash kept;
      the address format adds its own slash before it, so a path that starts
      with '/' gives an address with two. */
  lemma RouteAddress(request: Request, repo: string)
    requires request.path == repo + "/" + HandlerPath
    ensures AddressOf(request) == RepoUrl(request.tls, request.host, repo + "/")
  {
    assert request.path == (repo + "/") + HandlerPath;
  }

  /** A path that does not end in `info/refs/` is addressed whole. */
  lemma UnroutedAddress(request: Request)
    requires !HasSuffix(request.path, HandlerPath)
    ensures AddressOf(request) == RepoUrl(request.tls, request.host, request.path)
  {
  }
}

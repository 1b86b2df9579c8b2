/** handler.go: the first handler, which routes on the whole URL path,
    always addresses the repository over https, and reports every error
    through `handleError`. */
module RootHandler {
  import opened Go
  import opened GoStrings
  import opened UrlQuery
  import opened Transport
  import opened Http
  import opened SmartHttp
  import opened Paths
  import opened Routing
  import opened Dispatch

  const Prefix := "git"
  const InvalidRequest := "Invalid request: "

  /** `handleError`: a plain content type, then `http.Error` with the code;
      the rest of the trace is kept as it was. */
  function HandleError(t: seq<Event>, errCode: int, err: string): (r: Response)
    ensures ServedError(r, errCode, err)
    ensures Sessions(r.trace) == Sessions(t) && Encoded(r.trace) == Encoded(t)
    ensures ReadsBody(r.trace) == ReadsBody(t) && RunsPack(r.trace) == RunsPack(t)
  {
    PlainError(t, errCode, err)
  }

  /** `Header().Add("Cache-Control", "no-cache")`, the only header set
      before routing. */
  function Headed(): (t: seq<Event>)
    ensures !Reaches(t, AtSession) && !Reaches(t, AtBodyRead) && !Reaches(t, AtWrite)
    ensures Sessions(t) == [] && Encoded(t) == [] && !ReadsBody(t) && !RunsPack(t) && RequestRefs !in t
    ensures HeaderAfter(t, CacheControlHeaderKey, "") == NoCacheValue
  {
    Then([], AddHeader(CacheControlHeaderKey, NoCacheValue))
  }

  /** The headers once the service's content type is set. */
  function Typed(contentType: string): (t: seq<Event>)
    ensures HeadersOnly(t, contentType)
  {
    Retyped(Headed(), contentType)
  }

  /** The repository's address: "https://", the host, and the repository
      path, which keeps the path's leading '/'. */
  function Address(request: Request, repoPath: string): string
  {
    "https" + "://" + request.host + repoPath
  }

  /** `ServeHTTP`: route on the whole path; an invalid path is 403 and a
      routed request goes on to the transport. */
  function ServeHTTP(request: Request, o: Oracle): (r: Response)
    ensures r.Served? && r.status == StatusForbidden ==> RouteOf(request.path, request.query).Invalid?
  {
    var headed := Headed();
    var path := request.path;
    match RouteOf(path, request.query)
    case Invalid => HandleError(headed, StatusForbidden, InvalidRequest + path)
    case Unsliced(fault) => Aborted(fault, headed)
    case Routed(isInfoRefsRequest, service, repoPath) => Forward(request, o, isInfoRefsRequest, service, repoPath)
  }

  /** The rest of `ServeHTTP` for a routed request: an address the
      transport rejects is 400; otherwise set the service's content type,
      run the exchange, and report its error as 400. Only the nil session
      of an advertisement panics. */
  function Forward(request: Request, o: Oracle, isInfoRefsRequest: bool, service: string, repoPath: string): (r: Response)
    ensures r.Served? ==> r.status == StatusOK || r.status == StatusBadRequest
    ensures r.Aborted? ==> r.fault == NilDereference
  {
    match NewEndpoint(o, Address(request, repoPath))
    case Err(m) => HandleError(Headed(), StatusBadRequest, m)
    case Ok(transportEndpoint) =>
      Finish(Typed(ContentType(service, isInfoRefsRequest)), Exchange(isInfoRefsRequest, service, transportEndpoint, o))
  }

  /** The end of `ServeHTTP`: a panic of the exchange, its error as 400, or
      200. */
  function Finish(typed: seq<Event>, ran: Run): (r: Response)
    ensures ran.Crashed? ==> r == Aborted(ran.fault, typed + ran.trace)
    ensures ran.Finished? && ran.err.Nil? ==> r == Served(StatusOK, typed + ran.trace)
    ensures ran.Finished? && ran.err.Error? ==>
      && ServedError(r, StatusBadRequest, ran.err.msg)
      && Sessions(r.trace) == Sessions(typed + ran.trace) && Encoded(r.trace) == Encoded(typed + ran.trace)
      && ReadsBody(r.trace) == ReadsBody(typed + ran.trace) && RunsPack(r.trace) == RunsPack(typed + ran.trace)
  {
    match ran
    case Crashed(fault, t) => Aborted(fault, Chain(typed, t))
    case Finished(err, t) =>
      if err.Error? then HandleError(Chain(typed, t), StatusBadRequest, err.msg)
      else Served(StatusOK, Chain(typed, t))
  }

  /** A routed request is forwarded as routed. */
  lemma ServeRouted(request: Request, o: Oracle, repo: string, name: string)
    requires name == InfoRefsService || name == ReceiveService || name == UploadService
    requires request.path == RoutedPath("/" + repo, name)
    ensures ServeHTTP(request, o) == Forward(request, o, name == InfoRefsService, Requested(request.query, name), "/" + repo)
  {
    RouteOfRouted("/" + repo, name, request.query);
  }

  /** The repository on `/<repo>/...` is addressed as
      `https://<host>/<repo>`, whether or not the request came over TLS. */
  lemma AlwaysHttps(request: Request, repo: string)
    ensures Address(request, "/" + repo) == RepoUrl(true, request.host, repo)
  {
  }

  /** A routed request whose address the transport rejects is 400, with
      only `Cache-Control` set before the error. */
  lemma ForwardRejected(request: Request, o: Oracle, isInfoRefsRequest: bool, service: string, repoPath: string)
    requires o.endpoint(Address(request, repoPath)).Error?
    ensures Forward(request, o, isInfoRefsRequest, service, repoPath) ==
      HandleError(Headed(), StatusBadRequest, o.endpoint(Address(request, repoPath)).msg)
  {
  }

  /** An address the transport rejects is reported as 400 with its error,
      before any session is opened. */
  lemma ServeRejected(request: Request, o: Oracle, repo: string, name: string)
    requires name == InfoRefsService || name == ReceiveService || name == UploadService
    requires request.path == RoutedPath("/" + repo, name)
    requires o.endpoint(RepoUrl(true, request.host, repo)).Error?
    ensures ServedError(ServeHTTP(request, o), StatusBadRequest, o.endpoint(RepoUrl(true, request.host, repo)).msg)
    ensures Sessions(ServeHTTP(request, o).trace) == []
  {
    ServeRouted(request, o, repo, name);
    AlwaysHttps(request, repo);
    ForwardRejected(request, o, name == InfoRefsService, Requested(request.query, name), "/" + repo);
  }

  /** A routed request whose address the transport accepts sets the
      service's content type and runs the exchange at that address. */
  lemma ServeAccepted(request: Request, o: Oracle, isInfoRefsRequest: bool, service: string, repoPath: string)
    requires RouteOf(request.path, request.query) == Routed(isInfoRefsRequest, service, repoPath)
    requires o.endpoint(Address(request, repoPath)).Nil?
    ensures ServeHTTP(request, o) ==
      Finish(Typed(ContentType(service, isInfoRefsRequest)),
             Exchange(isInfoRefsRequest, service, Endpoint(Address(request, repoPath)), o))
  {
  }

  /** A pack request to a healthy gateway is served as the design requires,
      at the https address of the repository named before the service. */
  lemma ServePack(request: Request, o: Oracle, repo: string, service: string)
    requires Healthy(o)
    requires service == ReceiveService || service == UploadService
    requires request.path == RoutedPath("/" + repo, service)
    ensures ServedPack(o, KindOf(service).value, RepoUrl(true, request.host, repo), ServeHTTP(request, o))
  {
    RouteOfRouted("/" + repo, service, request.query);
    AlwaysHttps(request, repo);
    ServeAccepted(request, o, false, service, "/" + repo);
    PackExchangeServed(o, service, RepoUrl(true, request.host, repo), Typed(ContentType(service, false)));
  }

  /** An advertisement request to a healthy gateway, for the service its
      query names, is served as the design requires at the https address of
      the repository named before `info/refs`. */
  lemma ServeAdvertisement(request: Request, o: Oracle, repo: string)
    requires Healthy(o)
    requires request.path == RoutedPath("/" + repo, InfoRefsService)
    requires KindOf(Get(request.query, "service")).Some?
    ensures ServedAdvertisement(o, Get(request.query, "service"), RepoUrl(true, request.host, repo), ServeHTTP(request, o))
  {
    var service := Get(request.query, "service");
    RouteOfRouted("/" + repo, InfoRefsService, request.query);
    AlwaysHttps(request, repo);
    ServeAccepted(request, o, true, service, "/" + repo);
    AdvertisementExchangeServed(o, service, RepoUrl(true, request.host, repo), Typed(ContentType(service, true)));
  }

  /** An advertisement for a service with no session kind panics on the
      nil session, after the advertisement content type is set. */
  lemma ServeUnknownAdvertisement(request: Request, o: Oracle, repo: string)
    requires request.path == RoutedPath("/" + repo, InfoRefsService)
    requires o.endpoint(RepoUrl(true, request.host, repo)).Nil?
    requires KindOf(Get(request.query, "service")).None?
    ensures ServeHTTP(request, o) == Aborted(NilDereference, Typed(ContentType(Get(request.query, "service"), true)))
  {
    var service := Get(request.query, "service");
    RouteOfRouted("/" + repo, InfoRefsService, request.query);
    AlwaysHttps(request, repo);
    ServeAccepted(request, o, true, service, "/" + repo);
    assert Typed(ContentType(service, true)) + [] == Typed(ContentType(service, true));
  }

  /** A pack session that fails to open is reported as 400 with the open
      error, after one session was asked for and nothing read. */
  lemma ForwardOpenFailure(request: Request, o: Oracle, service: string, repoPath: string)
    requires service == ReceiveService || service == UploadService
    requires o.endpoint(Address(request, repoPath)).Nil?
    requires OpenAnswer(o, KindOf(service).value).Err?
    ensures var r := Forward(request, o, false, service, repoPath);
      && ServedError(r, StatusBadRequest, OpenAnswer(o, KindOf(service).value).msg)
      && Sessions(r.trace) == [KindOf(service).value]
      && !ReadsBody(r.trace) && Encoded(r.trace) == []
  {
    var url := Address(request, repoPath);
    var kind := KindOf(service).value;
    var typed := Typed(ContentType(service, false));
    var t := typed + [OpenSession(kind, url)];
    ExchangeOpenFailure(service, Endpoint(url), o);
    assert Forward(request, o, false, service, repoPath) == HandleError(t, StatusBadRequest, OpenAnswer(o, kind).msg);
    Concat(typed, [OpenSession(kind, url)]);
    One(OpenSession(kind, url));
  }

  /** A pack session that fails to open is reported as 400 with its error:
      the session was asked for, and no body was read. */
  lemma ServeOpenFailure(request: Request, o: Oracle, repo: string, service: string)
    requires service == ReceiveService || service == UploadService
    requires request.path == RoutedPath("/" + repo, service)
    requires o.endpoint(RepoUrl(true, request.host, repo)).Nil?
    requires OpenAnswer(o, KindOf(service).value).Err?
    ensures ServedError(ServeHTTP(request, o), StatusBadRequest, OpenAnswer(o, KindOf(service).value).msg)
    ensures Sessions(ServeHTTP(request, o).trace) == [KindOf(service).value]
    ensures !ReadsBody(ServeHTTP(request, o).trace) && Encoded(ServeHTTP(request, o).trace) == []
  {
    ServeRouted(request, o, repo, service);
    AlwaysHttps(request, repo);
    ForwardOpenFailure(request, o, service, "/" + repo);
  }

  /** A request is refused with 403 exactly when the last field of its path
      names none of the three services, and the refusal quotes the whole
      path. */
  lemma ServeForbidden(request: Request, o: Oracle)
    ensures var name := LastSegment(request.path, '/');
      var resp := ServeHTTP(request, o);
      && ((resp.Served? && resp.status == StatusForbidden) <==>
            name != InfoRefsService && name != ReceiveService && name != UploadService)
      && (name != InfoRefsService && name != ReceiveService && name != UploadService ==>
            ServedError(resp, StatusForbidden, InvalidRequest + request.path))
  {
    RouteInvalid(request.path, request.query);
  }

  /** The bare path `refs` panics on the repository slice, after only
      `Cache-Control`; no other request panics that way. */
  lemma ServeBareRefs(request: Request, o: Oracle)
    ensures var resp := ServeHTTP(request, o);
      (resp.Aborted? && resp.fault == SliceOutOfRange) <==> request.path == InfoRefsService
    ensures request.path == InfoRefsService ==> ServeHTTP(request, o) == Aborted(SliceOutOfRange, Headed())
  {
    RouteUnsliced(request.path, request.query);
  }
}

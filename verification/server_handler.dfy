/** server/handler.go: the handler that parses, dispatches and reports in
    one place, with the status decided by `handleRequest`. */
module ServerHandler {
  import opened Go
  import opened GoStrings
  import opened UrlQuery
  import opened Transport
  import opened Http
  import opened SmartHttp
  import opened Paths
  import opened Routing
  import opened Dispatch

  const Name := "git"
  const RoutePrefix := "/" + Name + "/"
  const InvalidRequest := "Invalid request: "

  /** `handleRequest`'s results `statusCode, err`, or its panic. */
  datatype Outcome = Returned(statusCode: int, err: Error, trace: seq<Event>) | Panicked(fault: Fault, trace: seq<Event>)

  /** The route of a request: its path with the route prefix stripped. */
  function RouteOfRequest(request: Request): Route
  {
    RouteOf(TrimPrefix(request.path, RoutePrefix), request.query)
  }

  /** `handleRequest`: set `Cache-Control` and a plain content type, then
      route. An invalid path is 403 and an address the transport rejects is
      400; otherwise the service's content type is set and the exchange's
      error is returned with status 0. */
  function HandleRequest(request: Request, o: Oracle): (r: Outcome)
    ensures r.Returned? && r.err.Nil? ==> r.statusCode == 0
    ensures r.Returned? && r.statusCode != 0 ==> r.err.Error? && !Reaches(r.trace, AtSession)
    ensures r.Panicked? ==> (r.fault == SliceOutOfRange <==> RouteOfRequest(request).Unsliced?)
  {
    var requestPath := TrimPrefix(request.path, RoutePrefix);
    var headed := PlainHeaded();
    match RouteOf(requestPath, request.query)
    case Invalid => Returned(StatusForbidden, Error(InvalidRequest + requestPath), headed)
    case Unsliced(fault) => Panicked(fault, headed)
    case Routed(isInfoRefsRequest, service, repo) =>
      var endpoint := RepoUrl(request.tls, request.host, repo);
      match NewEndpoint(o, endpoint)
      case Err(m) => Returned(StatusBadRequest, Error(m), headed)
      case Ok(transportEndpoint) =>
        Finish(Typed(ContentType(service, isInfoRefsRequest)), Exchange(isInfoRefsRequest, service, transportEndpoint, o))
  }

  /** The end of `handleRequest`: a panic of the exchange, or its error
      with status 0, after the headers set so far. */
  function Finish(typed: seq<Event>, ran: Run): (r: Outcome)
    ensures r.trace == typed + ran.trace
    ensures r.Returned? <==> ran.Finished?
    ensures r.Returned? ==> r.statusCode == 0 && r.err == ran.err
    ensures r.Panicked? ==> r.fault == ran.fault
  {
    match ran
    case Crashed(fault, t) => Panicked(fault, Chain(typed, t))
    case Finished(err, t) => Returned(0, err, Chain(typed, t))
  }

  /** `ServeHTTP`: an error from `handleRequest` resets the content type to
      plain text and is reported with `http.Error` and the returned status. */
  function ServeHTTP(request: Request, o: Oracle): (r: Response)
    ensures r.Served? && r.status != StatusOK ==> |r.trace| > 0 && r.trace[|r.trace| - 1].HttpError?
  {
    Report(HandleRequest(request, o))
  }

  /** What `ServeHTTP` makes of `handleRequest`'s outcome: an error becomes
      a plain-text error response that leaves the rest of the trace as it
      was; no error is 200 with the trace unchanged; a panic stays one. */
  function Report(outcome: Outcome): (r: Response)
    ensures outcome.Returned? && outcome.err.Error? ==>
      && ServedError(r, outcome.statusCode, outcome.err.msg)
      && Sessions(r.trace) == Sessions(outcome.trace) && Encoded(r.trace) == Encoded(outcome.trace)
      && ReadsBody(r.trace) == ReadsBody(outcome.trace) && RunsPack(r.trace) == RunsPack(outcome.trace)
    ensures outcome.Returned? && outcome.err.Nil? ==> r == Served(StatusOK, outcome.trace)
    ensures outcome.Panicked? ==> r == Aborted(outcome.fault, outcome.trace)
  {
    match outcome
    case Panicked(fault, t) => Aborted(fault, t)
    case Returned(statusCode, err, t) =>
      if err.Error? then
        PlainError(t, statusCode, err.msg)
      else Served(StatusOK, t)
  }

  /** The headers once the service's content type is set. */
  function Typed(contentType: string): seq<Event>
  {
    Retyped(PlainHeaded(), contentType)
  }

  /** A request on `<prefix><path>` routes as `path` does. */
  lemma PrefixRemoved(request: Request, repo: string, name: string)
    requires name == InfoRefsService || name == ReceiveService || name == UploadService
    requires request.path == RoutePrefix + RoutedPath(repo, name)
    ensures RouteOfRequest(request) == Routed(name == InfoRefsService, Requested(request.query, name), repo)
  {
    var rest := RoutedPath(repo, name);
    assert request.path[..|RoutePrefix|] == RoutePrefix;
    assert request.path[|RoutePrefix|..] == rest;
    RouteOfRouted(repo, name, request.query);
  }

  /** A routed request whose address the transport rejects is 400, with
      only the first headers set. */
  lemma HandleRejected(request: Request, o: Oracle, isInfoRefsRequest: bool, service: string, repo: string)
    requires RouteOfRequest(request) == Routed(isInfoRefsRequest, service, repo)
    requires o.endpoint(RepoUrl(request.tls, request.host, repo)).Error?
    ensures HandleRequest(request, o) ==
      Returned(StatusBadRequest, o.endpoint(RepoUrl(request.tls, request.host, repo)), PlainHeaded())
  {
  }

  /** A routed request whose address the transport accepts sets the
      service's content type and runs the exchange at that address. */
  lemma HandleAccepted(request: Request, o: Oracle, isInfoRefsRequest: bool, service: string, repo: string)
    requires RouteOfRequest(request) == Routed(isInfoRefsRequest, service, repo)
    requires o.endpoint(RepoUrl(request.tls, request.host, repo)).Nil?
    ensures HandleRequest(request, o) ==
      Finish(Typed(ContentType(service, isInfoRefsRequest)),
             Exchange(isInfoRefsRequest, service, Endpoint(RepoUrl(request.tls, request.host, repo)), o))
  {
  }

  /** A routed pack request to a healthy gateway returns no error, and its
      trace is the served pack. */
  lemma HandledPack(request: Request, o: Oracle, service: string, repo: string)
    requires Healthy(o)
    requires RouteOfRequest(request) == Routed(false, service, repo)
    ensures var r := HandleRequest(request, o);
      && r.Returned? && r.err == Nil
      && ServedPack(o, KindOf(service).value, RepoUrl(request.tls, request.host, repo), Served(StatusOK, r.trace))
  {
    HandleAccepted(request, o, false, service, repo);
    PackExchangeServed(o, service, RepoUrl(request.tls, request.host, repo), Typed(ContentType(service, false)));
  }

  /** A pack request to a healthy gateway is served as the design requires,
      at the address of the repository named before the service. */
  lemma ServePack(request: Request, o: Oracle, repo: string, service: string)
    requires Healthy(o)
    requires service == ReceiveService || service == UploadService
    requires request.path == RoutePrefix + RoutedPath(repo, service)
    ensures ServedPack(o, KindOf(service).value, RepoUrl(request.tls, request.host, repo), ServeHTTP(request, o))
  {
    PrefixRemoved(request, repo, service);
    HandledPack(request, o, service, repo);
  }

  /** A routed advertisement to a healthy gateway returns no error, and its
      trace is the served advertisement. */
  lemma HandledAdvertisement(request: Request, o: Oracle, service: string, repo: string)
    requires Healthy(o) && KindOf(service).Some?
    requires RouteOfRequest(request) == Routed(true, service, repo)
    ensures var r := HandleRequest(request, o);
      && r.Returned? && r.err == Nil
      && ServedAdvertisement(o, service, RepoUrl(request.tls, request.host, repo), Served(StatusOK, r.trace))
  {
    HandleAccepted(request, o, true, service, repo);
    AdvertisementExchangeServed(o, service, RepoUrl(request.tls, request.host, repo), Typed(ContentType(service, true)));
  }

  /** An advertisement request to a healthy gateway, for the service its
      query names, is served as the design requires at the address of the
      repository named before `info/refs`. */
  lemma ServeAdvertisement(request: Request, o: Oracle, repo: string)
    requires Healthy(o)
    requires request.path == RoutePrefix + RoutedPath(repo, InfoRefsService)
    requires KindOf(Get(request.query, "service")).Some?
    ensures ServedAdvertisement(o, Get(request.query, "service"), RepoUrl(request.tls, request.host, repo), ServeHTTP(request, o))
  {
    PrefixRemoved(request, repo, InfoRefsService);
    HandledAdvertisement(request, o, Get(request.query, "service"), repo);
  }

  /** An advertisement for a service with no session kind leaves the
      session nil and panics when asked for references, after the
      advertisement content type is set. */
  lemma ServeUnknownAdvertisement(request: Request, o: Oracle, repo: string)
    requires request.path == RoutePrefix + RoutedPath(repo, InfoRefsService)
    requires o.endpoint(RepoUrl(request.tls, request.host, repo)).Nil?
    requires KindOf(Get(request.query, "service")).None?
    ensures ServeHTTP(request, o) == Aborted(NilDereference, Typed(ContentType(Get(request.query, "service"), true)))
  {
    var service := Get(request.query, "service");
    PrefixRemoved(request, repo, InfoRefsService);
    HandleAccepted(request, o, true, service, repo);
    assert Typed(ContentType(service, true)) + [] == Typed(ContentType(service, true));
  }

  /** An address the transport rejects is reported as 400 with its error,
      before any session is opened. */
  lemma ServeRejected(request: Request, o: Oracle, repo: string, name: string)
    requires name == InfoRefsService || name == ReceiveService || name == UploadService
    requires request.path == RoutePrefix + RoutedPath(repo, name)
    requires o.endpoint(RepoUrl(request.tls, request.host, repo)).Error?
    ensures ServedError(ServeHTTP(request, o), StatusBadRequest, o.endpoint(RepoUrl(request.tls, request.host, repo)).msg)
    ensures Sessions(ServeHTTP(request, o).trace) == []
  {
    PrefixRemoved(request, repo, name);
    HandleRejected(request, o, name == InfoRefsService, Requested(request.query, name), repo);
  }

  /** A routed pack request whose session fails to open returns the open
      error with status 0, having asked for one session and read nothing. */
  lemma HandledOpenFailure(request: Request, o: Oracle, service: string, repo: string)
    requires service == ReceiveService || service == UploadService
    requires RouteOfRequest(request) == Routed(false, service, repo)
    requires o.endpoint(RepoUrl(request.tls, request.host, repo)).Nil?
    requires OpenAnswer(o, KindOf(service).value).Err?
    ensures var r := HandleRequest(request, o);
      && r == Returned(0, Error(OpenAnswer(o, KindOf(service).value).msg), r.trace)
      && Sessions(r.trace) == [KindOf(service).value] && !ReadsBody(r.trace) && !RunsPack(r.trace)
      && Encoded(r.trace) == []
  {
    var url := RepoUrl(request.tls, request.host, repo);
    var kind := KindOf(service).value;
    var t := Typed(ContentType(service, false)) + [OpenSession(kind, url)];
    HandleAccepted(request, o, false, service, repo);
    ExchangeOpenFailure(service, Endpoint(url), o);
    assert HandleRequest(request, o) == Returned(0, Error(OpenAnswer(o, kind).msg), t);
    Concat(Typed(ContentType(service, false)), [OpenSession(kind, url)]);
    One(OpenSession(kind, url));
  }

  /** A pack session that fails to open is reported with its error and the
      status 0 the handler returns for every error after the address: the
      session was asked for, and no body was read. */
  lemma ServeOpenFailure(request: Request, o: Oracle, repo: string, service: string)
    requires service == ReceiveService || service == UploadService
    requires request.path == RoutePrefix + RoutedPath(repo, service)
    requires o.endpoint(RepoUrl(request.tls, request.host, repo)).Nil?
    requires OpenAnswer(o, KindOf(service).value).Err?
    ensures ServedError(ServeHTTP(request, o), 0, OpenAnswer(o, KindOf(service).value).msg)
    ensures Sessions(ServeHTTP(request, o).trace) == [KindOf(service).value]
    ensures !ReadsBody(ServeHTTP(request, o).trace) && Encoded(ServeHTTP(request, o).trace) == []
  {
    PrefixRemoved(request, repo, service);
    HandledOpenFailure(request, o, service, repo);
  }

  /** Every routed request returns 400 or 0. */
  lemma RoutedStatus(request: Request, o: Oracle)
    requires RouteOfRequest(request).Routed?
    ensures HandleRequest(request, o).Returned? ==>
      HandleRequest(request, o).statusCode == StatusBadRequest || HandleRequest(request, o).statusCode == 0
  {
    var route := RouteOfRequest(request);
    if o.endpoint(RepoUrl(request.tls, request.host, route.repo)).Error? {
      HandleRejected(request, o, route.isInfoRefsRequest, route.service, route.repo);
    } else {
      HandleAccepted(request, o, route.isInfoRefsRequest, route.service, route.repo);
    }
  }

  /** A request is refused with 403 exactly when the last field of its path
      names none of the three services, and the refusal quotes the path
      after the route prefix. */
  lemma ServeForbidden(request: Request, o: Oracle)
    ensures var name := LastSegment(TrimPrefix(request.path, RoutePrefix), '/');
      var resp := ServeHTTP(request, o);
      && ((resp.Served? && resp.status == StatusForbidden) <==>
            name != InfoRefsService && name != ReceiveService && name != UploadService)
      && (name != InfoRefsService && name != ReceiveService && name != UploadService ==>
            ServedError(resp, StatusForbidden, InvalidRequest + TrimPrefix(request.path, RoutePrefix)))
  {
    RouteInvalid(TrimPrefix(request.path, RoutePrefix), request.query);
    if RouteOfRequest(request).Routed? {
      RoutedStatus(request, o);
    }
  }

  /** The bare path `refs` panics on the repository slice, after only the
      first headers; no other request panics that way. */
  lemma ServeBareRefs(request: Request, o: Oracle)
    ensures var resp := ServeHTTP(request, o);
      (resp.Aborted? && resp.fault == SliceOutOfRange) <==> TrimPrefix(request.path, RoutePrefix) == InfoRefsService
    ensures TrimPrefix(request.path, RoutePrefix) == InfoRefsService ==>
      ServeHTTP(request, o) == Aborted(SliceOutOfRange, PlainHeaded())
  {
    RouteUnsliced(TrimPrefix(request.path, RoutePrefix), request.query);
  }
}

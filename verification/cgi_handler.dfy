/** cgi/handler.go: the handler of the CGI snapshot. It takes the service
    from the path with `RetrieveService`, reports an address the transport
    rejects as 406 and every later error as 400. Since `RetrieveService`
    returns only the advertisement path or panics, the pack cases of its
    switch never run. */
module CgiHandler {
  import opened Go
  import opened GoStrings
  import opened UrlQuery
  import opened Transport
  import opened Http
  import opened SmartHttp
  import opened Paths
  import opened CgiParseRequest
  import CgiPackUpload
  import InfoRefsAdvertise

  const InvalidRequest := "Invalid request: "

  /** `Header().Set("Cache-Control", "no-cache")`, the first step. */
  function Headed(): (t: seq<Event>)
    ensures !Reaches(t, AtSession) && !Reaches(t, AtBodyRead) && !Reaches(t, AtWrite)
    ensures Sessions(t) == [] && Encoded(t) == [] && !ReadsBody(t) && !RunsPack(t) && RequestRefs !in t
    ensures HeaderAfter(t, CacheControlHeaderKey, "") == NoCacheValue
  {
    Then([], SetHeader(CacheControlHeaderKey, NoCacheValue))
  }

  /** The headers once a case of the switch has set its content type. */
  function Typed(contentType: string): seq<Event>
  {
    Retyped(Headed(), contentType)
  }

  /** What one case of the switch does: the headers it sets, then the run
      whose error decides the status. */
  datatype Branch = Branch(head: seq<Event>, ran: Run)

  /** `switch service`: the advertisement case takes the service from the
      query; each of the three cases sets its content type before its
      operation; any other service is an "Invalid request" error.
      `received` is the run of the snapshot's own `pack.Receive`, whose
      source is not part of this model. */
  function Switch(service: string, query: Query, transportEndpoint: Endpoint, o: Oracle, received: Run): (b: Branch)
    ensures service == InfoRefsPath ==>
      && b.head == [SetHeader(ContentTypeHeaderKey, ContentType(Get(query, "service"), true))]
      && AdvertiseContract(o, Get(query, "service"), transportEndpoint, b.ran)
      && !ReadsBody(b.ran.trace) && !RunsPack(b.ran.trace)
      && (b.ran.Crashed? ==> b.ran.fault == NilDereference)
    ensures service == ReceivePackPath ==>
      b.head == [SetHeader(ContentTypeHeaderKey, ContentType(ReceivePackPath, false))] && b.ran == received
    ensures service == UploadPackPath ==>
      && b.head == [SetHeader(ContentTypeHeaderKey, ContentType(UploadPackPath, false))]
      && ExecutorContract(o, UploadPackSession, CgiPackUpload.OpenedUpload(o), b.ran)
      && Sessions(b.ran.trace) == [UploadPackSession]
    ensures service != InfoRefsPath && service != ReceivePackPath && service != UploadPackPath ==>
      b == Branch([], Finished(Error(InvalidRequest + service), []))
  {
    if service == InfoRefsPath then
      var service := Get(query, "service");
      Branch([SetHeader(ContentTypeHeaderKey, ContentType(service, true))], InfoRefsAdvertise.Advertise(service, transportEndpoint, o))
    else if service == ReceivePackPath then
      Branch([SetHeader(ContentTypeHeaderKey, ContentType(ReceivePackPath, false))], received)
    else if service == UploadPackPath then
      CgiPackUpload.UploadMeetsContract(transportEndpoint, o);
      Branch([SetHeader(ContentTypeHeaderKey, ContentType(UploadPackPath, false))], CgiPackUpload.Upload(transportEndpoint, o))
    else
      Branch([], Finished(Error(InvalidRequest + service), []))
  }

  /** `ServeHTTP`: set `Cache-Control`, take the service from the path and
      the address from the path without it; a rejected address is 406,
      otherwise run the switch. No request this handler serves reads the
      body or runs a pack operation. */
  function ServeHTTP(request: Request, o: Oracle, received: Run): (r: Response)
    ensures r.Served? ==> r.status == StatusOK || r.status == StatusBadRequest || r.status == StatusNotAcceptable
    ensures !ReadsBody(r.trace) && !RunsPack(r.trace)
  {
    var headed := Headed();
    match RetrieveService(request.path)
    case Panic(fault) => Aborted(fault, headed)
    case Return(service, _) =>
      match RetrieveTransportEndpoint(request.host, request.path, service, request.tls, o)
      case Err(m) => Rejected(m)
      case Ok(transportEndpoint) =>
        var branch := Switch(service, request.query, transportEndpoint, o, received);
        Finish(Chain(headed, branch.head), branch.ran)
  }

  /** After the switch: a panic of the operation, its error as 400 through
      `http.Error`, or 200. */
  function Finish(typed: seq<Event>, ran: Run): (r: Response)
    ensures ran.Crashed? ==> r == Aborted(ran.fault, typed + ran.trace)
    ensures ran.Finished? && ran.err.Nil? ==> r == Served(StatusOK, typed + ran.trace)
    ensures ran.Finished? && ran.err.Error? ==>
      && ServedError(r, StatusBadRequest, ran.err.msg)
      && Sessions(r.trace) == Sessions(typed + ran.trace) && Encoded(r.trace) == Encoded(typed + ran.trace)
      && (RequestRefs in r.trace <==> RequestRefs in typed + ran.trace)
    ensures ReadsBody(r.trace) == ReadsBody(typed + ran.trace) && RunsPack(r.trace) == RunsPack(typed + ran.trace)
  {
    match ran
    case Crashed(fault, t) => Aborted(fault, Chain(typed, t))
    case Finished(err, t) =>
      if err.Error? then HttpErrorAfter(Chain(typed, t), StatusBadRequest, err.msg)
      else Served(StatusOK, Chain(typed, t))
  }

  /** An advertisement path: `info/refs` itself, or ending in `/info/refs`. */
  predicate AdvertisementPath(requestPath: string)
  {
    requestPath == InfoRefsPath || HasSuffix(requestPath, "/" + InfoRefsPath)
  }

  /** The address of an advertisement request: the path without `info/refs`,
      leading slash kept. */
  function AddressOf(request: Request): string
  {
    RepoUrl(request.tls, request.host, TrimSuffix(request.path, InfoRefsPath))
  }

  /** Every path that is not an advertisement path panics on the index past
      the last field, after only `Cache-Control`. */
  lemma ServeIndexPanic(request: Request, o: Oracle, received: Run)
    ensures var resp := ServeHTTP(request, o, received);
      (resp.Aborted? && resp.fault == IndexOutOfRange) <==> !AdvertisementPath(request.path)
    ensures !AdvertisementPath(request.path) ==> ServeHTTP(request, o, received) == Aborted(IndexOutOfRange, Headed())
  {
    if AdvertisementPath(request.path) {
      Addressed(request, o);
    }
  }

  /** A pack request, `<repo>/git-upload-pack` or `<repo>/git-receive-pack`,
      is never served: it panics before the address is built. */
  lemma ServePackRequest(request: Request, o: Oracle, received: Run, repo: string, name: string)
    requires name == UploadPackPath || name == ReceivePackPath
    requires request.path == repo + "/" + name
    ensures ServeHTTP(request, o, received) == Aborted(IndexOutOfRange, Headed())
  {
    var p := request.path;
    assert p[|p| - 1] == 'k';
    var suffix := "/" + InfoRefsPath;
    assert suffix[|suffix| - 1] == 's';
    ServeIndexPanic(request, o, received);
  }

  /** The pack cases of the switch never run: what `ServeHTTP` does does not
      depend on the receive operation at all. */
  lemma ReceiveUnreachable(request: Request, o: Oracle, received: Run, other: Run)
    ensures ServeHTTP(request, o, received) == ServeHTTP(request, o, other)
  {
    match RetrieveService(request.path)
    case Panic(_) =>
    case Return(service, _) =>
      assert service == InfoRefsPath;
  }

  /** An advertisement path names the advertisement service and is
      addressed by the path without `info/refs`. */
  lemma Addressed(request: Request, o: Oracle)
    requires AdvertisementPath(request.path)
    ensures RetrieveService(request.path) == Return(InfoRefsPath, Nil)
    ensures RetrieveTransportEndpoint(request.host, request.path, InfoRefsPath, request.tls, o) == NewEndpoint(o, AddressOf(request))
  {
  }

  /** The response to a rejected address: 406 with the transport's error,
      after only `Cache-Control`. */
  function Rejected(m: string): (r: Response)
    ensures ServedError(r, StatusNotAcceptable, m)
    ensures Sessions(r.trace) == []
  {
    HttpErrorAfter(Headed(), StatusNotAcceptable, m)
  }

  /** An advertisement whose address the transport rejects is 406, with
      only `Cache-Control` set before the error and no session opened. */
  lemma ServeRejected(request: Request, o: Oracle, received: Run)
    requires AdvertisementPath(request.path)
    requires o.endpoint(AddressOf(request)).Error?
    ensures ServeHTTP(request, o, received) == Rejected(o.endpoint(AddressOf(request)).msg)
  {
    Addressed(request, o);
  }

  /** The advertisement step of a request whose address the transport
      accepts. */
  lemma ServeAccepted(request: Request, o: Oracle, received: Run)
    requires AdvertisementPath(request.path)
    requires o.endpoint(AddressOf(request)).Nil?
    ensures var service := Get(request.query, "service");
      ServeHTTP(request, o, received) ==
        Finish(Typed(ContentType(service, true)), InfoRefsAdvertise.Advertise(service, Endpoint(AddressOf(request)), o))
  {
    Addressed(request, o);
  }

  /** A healthy gateway serves an advertisement path as the design requires,
      at the address of the path without `info/refs`. */
  lemma ServeAdvertisement(request: Request, o: Oracle, received: Run)
    requires Healthy(o)
    requires AdvertisementPath(request.path)
    requires KindOf(Get(request.query, "service")).Some?
    ensures ServedAdvertisement(o, Get(request.query, "service"), AddressOf(request), ServeHTTP(request, o, received))
  {
    var service := Get(request.query, "service");
    var ran := InfoRefsAdvertise.Advertise(service, Endpoint(AddressOf(request)), o);
    ServeAccepted(request, o, received);
    AdvertisementServedFrom(o, service, AddressOf(request), Typed(ContentType(service, true)), ran);
  }

  /** On `/<repo>/info/refs` the address keeps both slashes around the
      repository: `<scheme>://<host>//<repo>/`. */
  lemma AdvertisementAddress(request: Request, repo: string)
    requires request.path == "/" + repo + "/" + InfoRefsPath
    ensures AdvertisementPath(request.path)
    ensures AddressOf(request) == RepoUrl(request.tls, request.host, "/" + repo + "/")
  {
    var p := request.path;
    assert p == ("/" + repo) + ("/" + InfoRefsPath);
    assert p[|p| - |"/" + InfoRefsPath|..] == "/" + InfoRefsPath;
    assert p[|p| - |InfoRefsPath|..] == InfoRefsPath;
    assert p[..|p| - |InfoRefsPath|] == "/" + repo + "/";
  }

  /** An advertisement for a service with no session kind panics on the nil
      session, after the advertisement content type is set. */
  lemma ServeUnknownAdvertisement(request: Request, o: Oracle, received: Run)
    requires AdvertisementPath(request.path)
    requires o.endpoint(AddressOf(request)).Nil?
    requires KindOf(Get(request.query, "service")).None?
    ensures ServeHTTP(request, o, received) == Aborted(NilDereference, Typed(ContentType(Get(request.query, "service"), true)))
  {
    ServeAccepted(request, o, received);
    assert Typed(ContentType(Get(request.query, "service"), true)) + [] == Typed(ContentType(Get(request.query, "service"), true));
  }

  /** An advertisement whose session fails to open is 400 with the open
      error: one session asked for, no references asked for, nothing
      written. */
  lemma ServeOpenFailure(request: Request, o: Oracle, received: Run)
    requires AdvertisementPath(request.path)
    requires o.endpoint(AddressOf(request)).Nil?
    requires KindOf(Get(request.query, "service")).Some?
    requires OpenAnswer(o, KindOf(Get(request.query, "service")).value).Err?
    ensures var resp := ServeHTTP(request, o, received);
      var kind := KindOf(Get(request.query, "service")).value;
      && ServedError(resp, StatusBadRequest, OpenAnswer(o, kind).msg)
      && Sessions(resp.trace) == [kind] && Encoded(resp.trace) == [] && RequestRefs !in resp.trace
  {
    var service := Get(request.query, "service");
    var typed := Typed(ContentType(service, true));
    var ran := InfoRefsAdvertise.Advertise(service, Endpoint(AddressOf(request)), o);
    ServeAccepted(request, o, received);
    Concat(typed, ran.trace);
  }

  /** The default case of the switch: a service none of the cases names is
      400 with "Invalid request: " and the service, nothing else done. */
  lemma InvalidService(service: string, query: Query, transportEndpoint: Endpoint, o: Oracle, received: Run)
    requires service != InfoRefsPath && service != ReceivePackPath && service != UploadPackPath
    ensures var b := Switch(service, query, transportEndpoint, o, received);
      var resp := Finish(Headed() + b.head, b.ran);
      && ServedError(resp, StatusBadRequest, InvalidRequest + service)
      && Sessions(resp.trace) == [] && Encoded(resp.trace) == []
  {
    assert Headed() + [] + [] == Headed();
  }
}

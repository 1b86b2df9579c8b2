/** The wire contract of Git's smart HTTP transport as the gateway is meant to
    follow it ("Smart Server Response" in "Discovering References" of
    gitprotocol-http(5)): content types, the `# service=` announcement and
    flush that open an advertisement, and what one pack exchange must do.
    Each is given with its inverse or as a predicate, so that every snapshot
    of the gateway can be held against the same definition. */
module SmartHttp {
  import opened Go
  import opened GoStrings
  import opened Transport
  import opened Http
  import Paths

  const ApplicationPrefix := "application/x-"
  const AdvertisementSuffix := "-advertisement"
  const ResultSuffix := "-result"
  const ServiceLinePrefix := "# service="

  /** `application/x-<service>-advertisement` for a reference advertisement,
      `application/x-<service>-result` for a pack result. The service and the
      mode can be read back from it. */
  function ContentType(service: string, advertisement: bool): (ct: string)
    ensures ParseContentType(ct) == Some((service, advertisement))
  {
    var suffix := if advertisement then AdvertisementSuffix else ResultSuffix;
    var ct := ApplicationPrefix + service + suffix;
    assert ct[..|ApplicationPrefix|] == ApplicationPrefix;
    var rest := ct[|ApplicationPrefix|..];
    assert rest == service + suffix;
    assert rest[|rest| - 2] == (if advertisement then 'n' else 'l');
    ct
  }

  /** The content type as the handlers format it, `application/x-%v-%v` with
      the service and the suffix word. */
  lemma ContentTypeFormat(service: string, advertisement: bool)
    ensures "application/x-" + service + "-" + (if advertisement then "advertisement" else "result")
            == ContentType(service, advertisement)
  {
  }

  /** The service and mode a protocol content type names, if it is one. */
  function ParseContentType(ct: string): Option<(string, bool)>
  {
    if !HasPrefix(ct, ApplicationPrefix) then None
    else
      var rest := ct[|ApplicationPrefix|..];
      if HasSuffix(rest, AdvertisementSuffix) then
        Some((rest[..|rest| - |AdvertisementSuffix|], true))
      else if HasSuffix(rest, ResultSuffix) then
        Some((rest[..|rest| - |ResultSuffix|], false))
      else None
  }

  /** Reading a content type back is exact: only `ContentType` produces it. */
  lemma ParseContentTypeExact(ct: string, service: string, advertisement: bool)
    requires ParseContentType(ct) == Some((service, advertisement))
    ensures ContentType(service, advertisement) == ct
  {
    var rest := ct[|ApplicationPrefix|..];
    assert ct == ApplicationPrefix + rest;
    if advertisement {
      assert rest == service + AdvertisementSuffix;
    } else {
      assert rest == service + ResultSuffix;
    }
  }

  /** The scheme of the endpoint address: `https` exactly for a TLS request. */
  function Scheme(tls: bool): string
  {
    if tls then "https" else "http"
  }

  /** The address of the repository `repo` on `host`: `<scheme>://<host>/<repo>`.
      The repository path can be read back from it. */
  function RepoUrl(tls: bool, host: string, repo: string): (url: string)
    ensures RepoOf(url, tls, host) == Some(repo)
  {
    var url := Scheme(tls) + "://" + host + "/" + repo;
    assert url[..|Scheme(tls) + "://" + host + "/"|] == Scheme(tls) + "://" + host + "/";
    url
  }

  /** The repository path of an address on `host`, if it is one. */
  function RepoOf(url: string, tls: bool, host: string): Option<string>
  {
    var base := Scheme(tls) + "://" + host + "/";
    if HasPrefix(url, base) then Some(url[|base|..]) else None
  }

  /** Reading an address back is exact. */
  lemma RepoOfExact(url: string, tls: bool, host: string, repo: string)
    requires RepoOf(url, tls, host) == Some(repo)
    ensures RepoUrl(tls, host, repo) == url
  {
    var base := Scheme(tls) + "://" + host + "/";
    assert url == base + url[|base|..];
  }

  /** The two framing entries that open an advertisement: the announcement
      line and a flush. */
  function AdvertisementPrefix(service: string): (prefix: seq<PktLine>)
    ensures |prefix| == 2 && prefix[1] == Flush
    ensures Announced(prefix) == Some(service)
  {
    var line := ServiceLinePrefix + service;
    assert line[..|ServiceLinePrefix|] == ServiceLinePrefix;
    [Line(line), Flush]
  }

  /** The service an advertisement prefix announces, if it is one. */
  function Announced(prefix: seq<PktLine>): Option<string>
  {
    if |prefix| == 2 && prefix[0].Line? && prefix[1] == Flush
       && HasPrefix(prefix[0].text, ServiceLinePrefix)
    then Some(prefix[0].text[|ServiceLinePrefix|..])
    else None
  }

  /** An announcement determines its prefix. */
  lemma AnnouncedExact(prefix: seq<PktLine>, service: string)
    requires Announced(prefix) == Some(service)
    ensures prefix == AdvertisementPrefix(service)
  {
    assert prefix[0].text == ServiceLinePrefix + service;
  }

  /** The session kind a Git service name selects, if any. */
  function KindOf(service: string): Option<SessionKind>
  {
    if service == Paths.ReceivePackPath then Some(ReceivePackSession)
    else if service == Paths.UploadPackPath then Some(UploadPackSession)
    else None
  }

  /** Open the session `service` names at `endpoint`; another service
      opens none and leaves the session nil with no error. */
  function OpenService(service: string, endpoint: Endpoint, o: Oracle): (r: Opened)
    ensures Quiet(r.trace) && !ReadsBody(r.trace) && !RunsPack(r.trace) && RequestRefs !in r.trace && Encoded(r.trace) == []
    ensures KindOf(service).None? ==> r == NotOpened
    ensures KindOf(service).Some? ==>
      && r.trace == [OpenSession(KindOf(service).value, endpoint.url)]
      && (r.err.Nil? <==> OpenAnswer(o, KindOf(service).value).Ok?)
      && (r.err.Error? ==> r.err.msg == OpenAnswer(o, KindOf(service).value).msg)
    ensures r.session.Ptr? <==> KindOf(service).Some? && r.err.Nil?
  {
    if service == Paths.ReceivePackPath then NewSession(o, ReceivePackSession, endpoint)
    else if service == Paths.UploadPackPath then NewSession(o, UploadPackSession, endpoint)
    else NotOpened
  }

  /** The service name of a session kind: the inverse of `KindOf`. */
  function ServiceOf(kind: SessionKind): (service: string)
    ensures KindOf(service) == Some(kind)
  {
    match kind
    case ReceivePackSession => Paths.ReceivePackPath
    case UploadPackSession => Paths.UploadPackPath
  }

  /** What the advertisement for `service` encodes, given the references the
      session returned: the references untouched, behind the two-entry prefix. */
  function FramedRefs(service: string, refs: AdvRefs): Payload
  {
    Advertisement(AdvRefs(AdvertisementPrefix(service), refs.refs))
  }

  /** Every step of a pack exchange succeeds up to the response: the body
      decodes, the session has the capability, and the operation returns a
      response. */
  predicate ExchangeSucceeds(o: Oracle, kind: SessionKind, session: Ptr<Session>)
  {
    && DecodeAnswer(o, kind).Nil?
    && Capable(session, kind)
    && PackAnswer(o, kind).Ok?
    && PackAnswer(o, kind).value.Ptr?
  }

  /** The design's contract for a push or fetch executor: it touches no header
      and no advertisement, it runs the operation exactly when the body
      decoded and the session has the capability, it writes exactly the operation's response when
      the exchange succeeds and nothing otherwise, and it reports success
      exactly when the exchange and the encoding both succeed (a failed
      decode, a session without the capability and an absent response are
      all errors). */
  predicate ExecutorContract(o: Oracle, kind: SessionKind, session: Ptr<Session>, r: Run)
  {
    && r.Finished?
    && Quiet(r.trace)
    && RequestRefs !in r.trace
    && (RunsPack(r.trace) <==> DecodeAnswer(o, kind).Nil? && Capable(session, kind))
    && Encoded(r.trace) ==
         (if ExchangeSucceeds(o, kind, session) then [PackReport(kind, PackAnswer(o, kind).value.deref)] else [])
    && (r.err.Nil? <==> ExchangeSucceeds(o, kind, session) && o.encode.Nil?)
  }

  /** The design's contract for a pack request once its endpoint parsed: it
      opens one session of the matching kind at the endpoint and asks for no
      references; a failed open ends the request with the open's error before
      the body is read, and an opened session is handed to an executor that
      meets `ExecutorContract`. */
  predicate PackContract(o: Oracle, kind: SessionKind, url: string, r: Run)
  {
    && r.Finished?
    && Quiet(r.trace)
    && |r.trace| > 0 && r.trace[0] == OpenSession(kind, url)
    && Sessions(r.trace) == [kind]
    && RequestRefs !in r.trace
    && (ReadsBody(r.trace) <==> OpenAnswer(o, kind).Ok?)
    && (OpenAnswer(o, kind).Err? ==> r.err == Error(OpenAnswer(o, kind).msg) && Encoded(r.trace) == [])
    && (OpenAnswer(o, kind).Ok? ==> ExecutorContract(o, kind, Ptr(OpenAnswer(o, kind).value), r))
  }

  /** The design's contract for a reference advertisement of a known service:
      it opens one session of the matching kind at the endpoint, reads no body
      and runs no pack operation, asks for references only once the session
      is open, writes the references behind the announcement prefix only when
      they were obtained, and passes each collaborator error through. */
  predicate AdvertiseContract(o: Oracle, service: string, endpoint: Endpoint, r: Run)
  {
    KindOf(service).Some? ==>
      var kind := KindOf(service).value;
      && r.Finished?
      && Quiet(r.trace)
      && |r.trace| > 0 && r.trace[0] == OpenSession(kind, endpoint.url)
      && Sessions(r.trace) == [kind]
      && !ReadsBody(r.trace) && !RunsPack(r.trace)
      && (RequestRefs in r.trace <==> OpenAnswer(o, kind).Ok?)
      && Encoded(r.trace) ==
           (if OpenAnswer(o, kind).Ok? && o.advertised.Ok? then [FramedRefs(service, o.advertised.value)] else [])
      && (OpenAnswer(o, kind).Err? ==> r.err == Error(OpenAnswer(o, kind).msg))
      && (OpenAnswer(o, kind).Ok? && o.advertised.Err? ==> r.err == Error(o.advertised.msg))
      && (OpenAnswer(o, kind).Ok? && o.advertised.Ok? ==> r.err == o.encode)
  }

  /** Every collaborator call succeeds, and each session has the capability
      of its kind. */
  ghost predicate Healthy(o: Oracle)
  {
    && (forall url :: o.endpoint(url).Nil?)
    && o.openReceive.Ok? && o.openReceive.value.receiveCapable
    && o.openUpload.Ok? && o.openUpload.value.uploadCapable
    && o.decodeReceive.Nil? && o.decodeUpload.Nil?
    && o.receive.Ok? && o.receive.value.Ptr?
    && o.upload.Ok? && o.upload.value.Ptr?
    && o.advertised.Ok?
    && o.encode.Nil?
  }

  /** A healthy gateway answers every collaborator call of either kind. */
  lemma HealthyAnswers(o: Oracle, kind: SessionKind)
    requires Healthy(o)
    ensures OpenAnswer(o, kind).Ok? && ExchangeSucceeds(o, kind, Ptr(OpenAnswer(o, kind).value))
    ensures o.encode.Nil? && o.advertised.Ok?
    ensures DecodeAnswer(o, kind).Nil? && PackAnswer(o, kind) != Ok(Null)
  {
  }

  /** What a client of a healthy gateway sees for an advertisement request:
      status 200; one session of the service's kind opened at `url`; no body
      read and no pack operation; the references written behind the
      announcement; and, when they are written, the advertisement content
      type and `Cache-Control: no-cache`. */
  predicate ServedAdvertisement(o: Oracle, service: string, url: string, resp: Response)
  {
    && resp.Served? && resp.status == StatusOK
    && KindOf(service).Some? && o.advertised.Ok?
    && Sessions(resp.trace) == [KindOf(service).value]
    && OpenSession(KindOf(service).value, url) in resp.trace
    && !ReadsBody(resp.trace) && !RunsPack(resp.trace)
    && Encoded(resp.trace) == [FramedRefs(service, o.advertised.value)]
    && HeaderAt(resp.trace, Paths.ContentTypeHeaderKey, AtWrite, "") == Some(ContentType(service, true))
    && HeaderAt(resp.trace, Paths.CacheControlHeaderKey, AtWrite, "") == Some(Paths.NoCacheValue)
  }

  /** What a client of a healthy gateway sees for a pack request: status
      200; one session of `kind` opened at `url`; the body read, the pack
      operation run and its response written; no references asked for; and,
      when the response is written, the result content type and
      `Cache-Control: no-cache`. */
  predicate ServedPack(o: Oracle, kind: SessionKind, url: string, resp: Response)
  {
    && resp.Served? && resp.status == StatusOK
    && PackAnswer(o, kind).Ok? && PackAnswer(o, kind).value.Ptr?
    && Sessions(resp.trace) == [kind]
    && OpenSession(kind, url) in resp.trace
    && ReadsBody(resp.trace) && RunsPack(resp.trace) && RequestRefs !in resp.trace
    && Encoded(resp.trace) == [PackReport(kind, PackAnswer(o, kind).value.deref)]
    && HeaderAt(resp.trace, Paths.ContentTypeHeaderKey, AtWrite, "") == Some(ContentType(ServiceOf(kind), false))
    && HeaderAt(resp.trace, Paths.CacheControlHeaderKey, AtWrite, "") == Some(Paths.NoCacheValue)
  }

  /** Headers set and nothing else done: no milestone reached, no session,
      body, pack operation, reference request or output, and the content type
      and `Cache-Control: no-cache` in place. */
  predicate HeadersOnly(head: seq<Event>, contentType: string)
  {
    && !Reaches(head, AtSession) && !Reaches(head, AtBodyRead) && !Reaches(head, AtWrite)
    && Sessions(head) == [] && Encoded(head) == []
    && !ReadsBody(head) && !RunsPack(head) && RequestRefs !in head
    && HeaderAfter(head, Paths.ContentTypeHeaderKey, "") == contentType
    && HeaderAfter(head, Paths.CacheControlHeaderKey, "") == Paths.NoCacheValue
  }

  /** A handler that sets the result content type and `Cache-Control`, then
      hands a healthy exchange to a run meeting `PackContract`, serves the
      pack as the design requires. */
  lemma PackServedFrom(o: Oracle, kind: SessionKind, url: string, head: seq<Event>, ran: Run)
    requires Healthy(o) && PackContract(o, kind, url, ran)
    requires HeadersOnly(head, ContentType(ServiceOf(kind), false))
    ensures ran.err == Nil
    ensures ServedPack(o, kind, url, Served(StatusOK, head + ran.trace))
  {
    HealthyAnswers(o, kind);
    var t := head + ran.trace;
    Concat(head, ran.trace);
    EncodedReaches(ran.trace);
    QuietTail(head, ran.trace, Paths.ContentTypeHeaderKey, AtWrite, "");
    QuietTail(head, ran.trace, Paths.CacheControlHeaderKey, AtWrite, "");
    assert t[|head|] == OpenSession(kind, url);
  }

  /** A handler that sets the advertisement content type and
      `Cache-Control`, then hands a healthy session to a run meeting
      `AdvertiseContract`, serves the advertisement as the design requires. */
  lemma AdvertisementServedFrom(o: Oracle, service: string, url: string, head: seq<Event>, ran: Run)
    requires Healthy(o) && KindOf(service).Some? && AdvertiseContract(o, service, Endpoint(url), ran)
    requires HeadersOnly(head, ContentType(service, true))
    ensures ran.err == Nil
    ensures ServedAdvertisement(o, service, url, Served(StatusOK, head + ran.trace))
  {
    HealthyAnswers(o, KindOf(service).value);
    var t := head + ran.trace;
    Concat(head, ran.trace);
    EncodedReaches(ran.trace);
    QuietTail(head, ran.trace, Paths.ContentTypeHeaderKey, AtWrite, "");
    QuietTail(head, ran.trace, Paths.CacheControlHeaderKey, AtWrite, "");
    assert t[|head|] == OpenSession(KindOf(service).value, url);
  }

  /** `Cache-Control: no-cache`, then a plain content type: how the
      handlers registered per route begin. */
  function PlainHeaded(): (t: seq<Event>)
    ensures !Reaches(t, AtSession) && !Reaches(t, AtBodyRead) && !Reaches(t, AtWrite)
    ensures Sessions(t) == [] && Encoded(t) == [] && !ReadsBody(t) && !RunsPack(t) && RequestRefs !in t
    ensures HeaderAfter(t, Paths.CacheControlHeaderKey, "") == Paths.NoCacheValue
    ensures HeaderAfter(t, Paths.ContentTypeHeaderKey, "") == Paths.PlainContentValue
  {
    var cached := Then([], SetHeader(Paths.CacheControlHeaderKey, Paths.NoCacheValue));
    var e := SetHeader(Paths.ContentTypeHeaderKey, Paths.PlainContentValue);
    HeaderAfterThen(cached, e, Paths.ContentTypeHeaderKey, "");
    HeaderAfterThen(cached, e, Paths.CacheControlHeaderKey, "");
    Then(cached, e)
  }

  /** The headers `head` set, then the content type: still nothing but
      headers, now with the content type and `Cache-Control: no-cache` in
      place. Every handler sets its service's content type this way. */
  function Retyped(head: seq<Event>, contentType: string): (t: seq<Event>)
    requires !Reaches(head, AtSession) && !Reaches(head, AtBodyRead) && !Reaches(head, AtWrite)
    requires Sessions(head) == [] && Encoded(head) == [] && !ReadsBody(head) && !RunsPack(head) && RequestRefs !in head
    requires HeaderAfter(head, Paths.CacheControlHeaderKey, "") == Paths.NoCacheValue
    ensures HeadersOnly(t, contentType)
  {
    var e := SetHeader(Paths.ContentTypeHeaderKey, contentType);
    HeaderAfterThen(head, e, Paths.ContentTypeHeaderKey, "");
    HeaderAfterThen(head, e, Paths.CacheControlHeaderKey, "");
    Then(head, e)
  }

  /** `http.Error` with `status` and `text` after the events `t`: the
      failure the handler reports, with everything `t` did kept. */
  function HttpErrorAfter(t: seq<Event>, status: int, text: string): (r: Response)
    ensures ServedError(r, status, text)
    ensures Sessions(r.trace) == Sessions(t) && Encoded(r.trace) == Encoded(t)
    ensures ReadsBody(r.trace) == ReadsBody(t) && RunsPack(r.trace) == RunsPack(t)
    ensures RequestRefs in r.trace <==> RequestRefs in t
  {
    HeaderAfterThen(t, HttpError(status, text), Paths.ContentTypeHeaderKey, "");
    Served(status, Then(t, HttpError(status, text)))
  }

  /** A plain content type set again, then `http.Error`: how a handler
      reports a failure once it has set another content type. */
  function PlainError(t: seq<Event>, status: int, text: string): (r: Response)
    ensures ServedError(r, status, text)
    ensures Sessions(r.trace) == Sessions(t) && Encoded(r.trace) == Encoded(t)
    ensures ReadsBody(r.trace) == ReadsBody(t) && RunsPack(r.trace) == RunsPack(t)
    ensures RequestRefs in r.trace <==> RequestRefs in t
  {
    HttpErrorAfter(Then(t, SetHeader(Paths.ContentTypeHeaderKey, Paths.PlainContentValue)), status, text)
  }

  /** A failure the handler reports: the status it sets, and a plain-text
      error body. */
  predicate ServedError(resp: Response, status: int, text: string)
  {
    && resp.Served? && resp.status == status
    && |resp.trace| > 0 && resp.trace[|resp.trace| - 1] == HttpError(status, text)
    && HeaderAfter(resp.trace, Paths.ContentTypeHeaderKey, "") == Paths.PlainContentValue
  }
}

/** The advertisement step every snapshot performs once it holds an open
    session: fetch the references, replace their prefix with the announcement
    and a flush, and encode them. */
module Framing {
  import opened Go
  import opened Transport
  import opened Http
  import opened SmartHttp

  /** `refs, err := session.AdvertisedReferencesContext(ctx)`, then
      `refs.Prefix = [][]byte{"# service=<service>", pktline.Flush}` and
      `refs.Encode(writer)`. */
  function AdvertiseRefs(service: string, o: Oracle): (r: Run)
    ensures r.Finished? && Quiet(r.trace)
    ensures |r.trace| > 0 && r.trace[0] == RequestRefs
    ensures Sessions(r.trace) == [] && !ReadsBody(r.trace) && !RunsPack(r.trace)
    ensures o.advertised.Err? ==> r.err == Error(o.advertised.msg) && Encoded(r.trace) == []
    ensures o.advertised.Ok? ==> r.err == o.encode && Encoded(r.trace) == [FramedRefs(service, o.advertised.value)]
    ensures Reaches(r.trace, AtWrite) <==> o.advertised.Ok?
  {
    match o.advertised
    case Err(m) =>
      Finished(Error(m), Then([], RequestRefs))
    case Ok(refs) =>
      var framed := refs.(prefix := [Line("# service=" + service), Flush]);
      Finished(o.encode, Then(Then([], RequestRefs), Encode(Advertisement(framed))))
  }
}

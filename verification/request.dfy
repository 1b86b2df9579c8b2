/** internal/info_refs.go, internal/info_refs/advertise.go and
    cgi/internal/info_refs/advertise.go: the reference advertisement, the
    same function in all three files. */
module InfoRefsAdvertise {
  import opened Go
  import opened Transport
  import opened Http
  import opened SmartHttp
  import Framing

  /** Open a session of the kind `service` names, fetch its references and
      encode them behind the `# service=` announcement. Another service
      leaves the session nil, and asking it for references panics. */
  function Advertise(service: string, transportEndpoint: Endpoint, o: Oracle): (r: Run)
    ensures AdvertiseContract(o, service, transportEndpoint, r)
    ensures KindOf(service).None? ==> r == Crashed(NilDereference, [])
  {
    var started := OpenService(service, transportEndpoint, o);
    if started.err.Error? then Finished(started.err, started.trace)
    else
      match started.session
      case Null => Crashed(NilDereference, started.trace)
      case Ptr(_) =>
        var advertised := Framing.AdvertiseRefs(service, o);
        Finished(advertised.err, Chain(started.trace, advertised.trace))
  }
}

/** internal/request/do.go: the executor of the request-package handlers. */
module RequestDo {
  import opened Go
  import opened Transport
  import opened Http
  import opened SmartHttp
  import Framing
  import PackReceive
  import PackUpload
  import InfoRefsAdvertise

  const ReceiveService := "git-receive-pack"
  const UploadService := "git-upload-pack"

  /** Parse the endpoint; open the session the service names and, for a
      pack request, run its executor at once; then, for an advertisement,
      fetch and encode the references. An advertisement for another service
      asks a nil session for references and panics; a pack request for
      another service does nothing and succeeds. */
  function Do(isInfoRefsRequest: bool, service: string, endpoint: string, o: Oracle): (r: Run)
    ensures o.endpoint(endpoint).Error? ==> r == Finished(o.endpoint(endpoint), [])
    ensures o.endpoint(endpoint).Nil? && KindOf(service).None? ==>
      r == if isInfoRefsRequest then Crashed(NilDereference, []) else Finished(Nil, [])
  {
    match NewEndpoint(o, endpoint)
    case Err(m) => Finished(Error(m), [])
    case Ok(transportEndpoint) =>
      var state :=
        if service == ReceiveService then
          var started := NewSession(o, ReceivePackSession, transportEndpoint);
          if started.err.Nil? && !isInfoRefsRequest then
            var ran := PackReceive.Receive(started.session, o);
            Opened(started.session, ran.err, Chain(started.trace, ran.trace))
          else started
        else if service == UploadService then
          var started := NewSession(o, UploadPackSession, transportEndpoint);
          if started.err.Nil? && !isInfoRefsRequest then
            var ran := PackUpload.Upload(started.session, o);
            Opened(started.session, ran.err, Chain(started.trace, ran.trace))
          else started
        else NotOpened;
      if state.err.Error? || !isInfoRefsRequest then Finished(state.err, state.trace)
      else
        match state.session
        case Null => Crashed(NilDereference, state.trace)
        case Ptr(_) =>
          var advertised := Framing.AdvertiseRefs(service, o);
          Finished(advertised.err, Chain(state.trace, advertised.trace))
  }

  /** An advertisement request is the advertisement of the shared info/refs
      files, so it meets the design's contract. */
  lemma DoAdvertisement(service: string, endpoint: string, o: Oracle)
    requires o.endpoint(endpoint).Nil?
    ensures Do(true, service, endpoint, o) == InfoRefsAdvertise.Advertise(service, Endpoint(endpoint), o)
    ensures AdvertiseContract(o, service, Endpoint(endpoint), Do(true, service, endpoint, o))
  {
  }

  /** A push request meets the design's contract. */
  lemma DoPush(endpoint: string, o: Oracle)
    requires o.endpoint(endpoint).Nil?
    ensures PackContract(o, ReceivePackSession, endpoint, Do(false, ReceiveService, endpoint, o))
  {
    if o.openReceive.Ok? {
      PackReceive.ReceiveMeetsContract(Ptr(o.openReceive.value), o);
    }
  }

  /** A fetch request meets the design's contract unless the fetch returns
      no response. */
  lemma DoFetch(endpoint: string, o: Oracle)
    requires o.endpoint(endpoint).Nil? && o.upload != Ok(Null)
    ensures PackContract(o, UploadPackSession, endpoint, Do(false, UploadService, endpoint, o))
  {
    if o.openUpload.Ok? {
      PackUpload.UploadMeetsContract(Ptr(o.openUpload.value), o);
    }
  }

  /** With a nil fetch response the request succeeds having written
      nothing, where the design requires an error. */
  lemma DoFetchNilResponse(endpoint: string, o: Oracle)
    requires o.endpoint(endpoint).Nil? && o.openUpload.Ok? && o.openUpload.value.uploadCapable
    requires o.decodeUpload.Nil? && o.upload == Ok(Null)
    ensures Do(false, UploadService, endpoint, o).err == Nil
    ensures Encoded(Do(false, UploadService, endpoint, o).trace) == []
    ensures !PackContract(o, UploadPackSession, endpoint, Do(false, UploadService, endpoint, o))
  {
    assert NewEndpoint(o, endpoint) == Ok(Endpoint(endpoint));
    var started := NewSession(o, UploadPackSession, Endpoint(endpoint));
    var ran := PackUpload.Upload(started.session, o);
    assert Do(false, UploadService, endpoint, o) == Finished(ran.err, Chain(started.trace, ran.trace));
    PackUpload.UploadNilResponseIsSilent(started.session, o);
    assert !ExchangeSucceeds(o, UploadPackSession, started.session);
  }
}

/** internal/request/request.go: the earlier executor of the request-package
    handlers, written as a sequence of early returns. Its `Parse` is the
    one of internal/request/parse.go. */
module RequestRequest {
  import opened Go
  import opened Transport
  import opened Http
  import opened SmartHttp
  import Framing
  import PackReceive
  import PackUpload
  import RequestDo

  const ReceiveService := "git-receive-pack"
  const UploadService := "git-upload-pack"

  /** Parse the endpoint; open the session the service names; run the
      executor for a pack request; then, for an advertisement, fetch and
      encode the references. */
  function Do(isInfoRefsRequest: bool, service: string, endpoint: string, o: Oracle): (r: Run)
    ensures o.endpoint(endpoint).Error? ==> r == Finished(o.endpoint(endpoint), [])
    ensures o.endpoint(endpoint).Nil? && isInfoRefsRequest ==> AdvertiseContract(o, service, Endpoint(endpoint), r)
  {
    var isReceiveRequest := service == ReceiveService;
    var isUploadRequest := service == UploadService;
    match NewEndpoint(o, endpoint)
    case Err(m) => Finished(Error(m), [])
    case Ok(transportEndpoint) =>
      var started :=
        if isReceiveRequest then NewSession(o, ReceivePackSession, transportEndpoint)
        else if isUploadRequest then NewSession(o, UploadPackSession, transportEndpoint)
        else NotOpened;
      if started.err.Error? then Finished(started.err, started.trace)
      else
        var ran :=
          if isReceiveRequest && !isInfoRefsRequest then PackReceive.Receive(started.session, o)
          else if isUploadRequest && !isInfoRefsRequest then PackUpload.Upload(started.session, o)
          else Finished(Nil, []);
        var trace := Chain(started.trace, ran.trace);
        if ran.err.Error? then Finished(ran.err, trace)
        else if !isInfoRefsRequest then Finished(Nil, trace)
        else
          match started.session
          case Null => Crashed(NilDereference, trace)
          case Ptr(_) =>
            var advertised := Framing.AdvertiseRefs(service, o);
            Finished(advertised.err, Chain(trace, advertised.trace))
  }

  /** The rewrite in internal/request/do.go kept the behaviour: both
      executors agree on every input. */
  lemma DoAgrees(isInfoRefsRequest: bool, service: string, endpoint: string, o: Oracle)
    ensures Do(isInfoRefsRequest, service, endpoint, o) == RequestDo.Do(isInfoRefsRequest, service, endpoint, o)
  {
    if o.endpoint(endpoint).Nil? {
      if isInfoRefsRequest {
        DoAgreesOnAdvertisement(service, endpoint, o);
      } else if service == ReceiveService {
        assert Do(false, service, endpoint, o) == RequestDo.Do(false, service, endpoint, o);
      } else if service == UploadService {
        assert Do(false, service, endpoint, o) == RequestDo.Do(false, service, endpoint, o);
      }
    }
  }

  /** On an advertisement both executors open the same session and then
      fetch and encode the references the same way. */
  lemma DoAgreesOnAdvertisement(service: string, endpoint: string, o: Oracle)
    requires o.endpoint(endpoint).Nil?
    ensures Do(true, service, endpoint, o) == RequestDo.Do(true, service, endpoint, o)
  {
    var started :=
      if service == ReceiveService then NewSession(o, ReceivePackSession, Endpoint(endpoint))
      else if service == UploadService then NewSession(o, UploadPackSession, Endpoint(endpoint))
      else NotOpened;
    assert Chain(started.trace, []) == started.trace;
  }
}

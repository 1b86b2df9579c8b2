/** The session and executor step that handler.go and server/handler.go
    share line for line: open the session the service names, run the
    executor of a pack request, and for an advertisement fetch and encode
    the references. */
module Dispatch {
  import opened Go
  import opened Transport
  import opened Http
  import opened SmartHttp
  import opened Routing
  import Framing
  import InternalPack
  import PackUpload
  import InfoRefsAdvertise

  /** Open the session `service` names, run the executor for a pack request
      when it opened, and for an advertisement with no error so far fetch
      and encode the references, which panics on the nil session of any
      other service. */
  function Exchange(isInfoRefsRequest: bool, service: string, transportEndpoint: Endpoint, o: Oracle): (r: Run)
    ensures Quiet(r.trace)
    ensures !isInfoRefsRequest && KindOf(service).None? ==> r == Finished(Nil, [])
    ensures isInfoRefsRequest ==> r == InfoRefsAdvertise.Advertise(service, transportEndpoint, o)
    ensures r.Crashed? ==> r.fault == NilDereference
  {
    var state :=
      if service == ReceiveService then
        var started := NewSession(o, ReceivePackSession, transportEndpoint);
        if !isInfoRefsRequest && started.err.Nil? then
          var ran := InternalPack.ReceivePack(started.session, o);
          Opened(started.session, ran.err, Chain(started.trace, ran.trace))
        else started
      else if service == UploadService then
        var started := NewSession(o, UploadPackSession, transportEndpoint);
        if !isInfoRefsRequest && started.err.Nil? then
          var ran := InternalPack.UploadPack(started.session, o);
          Opened(started.session, ran.err, Chain(started.trace, ran.trace))
        else started
      else NotOpened;
    if isInfoRefsRequest && state.err.Nil? then
      match state.session
      case Null => Crashed(NilDereference, state.trace)
      case Ptr(_) =>
        var advertised := Framing.AdvertiseRefs(service, o);
        Finished(advertised.err, Chain(state.trace, advertised.trace))
    else Finished(state.err, state.trace)
  }

  /** A push through a session that opened meets the design's contract
      when the body decodes and the push returns a report; the executor
      itself does not check either. */
  lemma ExchangePush(transportEndpoint: Endpoint, o: Oracle)
    requires o.decodeReceive.Nil? && o.receive != Ok(Null)
    ensures PackContract(o, ReceivePackSession, transportEndpoint.url, Exchange(false, ReceiveService, transportEndpoint, o))
  {
    if o.openReceive.Ok? {
      InternalPack.ReceivePackMeetsContract(Ptr(o.openReceive.value), o);
    }
  }

  /** A fetch meets the design's contract unless it returns no response. */
  lemma ExchangeFetch(transportEndpoint: Endpoint, o: Oracle)
    requires o.upload != Ok(Null)
    ensures PackContract(o, UploadPackSession, transportEndpoint.url, Exchange(false, UploadService, transportEndpoint, o))
  {
    if o.openUpload.Ok? {
      PackUpload.UploadMeetsContract(Ptr(o.openUpload.value), o);
    }
  }

  /** A pack session that fails to open ends the exchange with the open
      error, having done nothing else. */
  lemma ExchangeOpenFailure(service: string, transportEndpoint: Endpoint, o: Oracle)
    requires service == ReceiveService || service == UploadService
    requires OpenAnswer(o, KindOf(service).value).Err?
    ensures Exchange(false, service, transportEndpoint, o) ==
      Finished(Error(OpenAnswer(o, KindOf(service).value).msg), [OpenSession(KindOf(service).value, transportEndpoint.url)])
  {
  }

  /** The exchange of a healthy pack request, behind headers that set the
      result content type and `Cache-Control`. */
  lemma PackExchangeServed(o: Oracle, service: string, url: string, head: seq<Event>)
    requires Healthy(o)
    requires service == ReceiveService || service == UploadService
    requires HeadersOnly(head, ContentType(service, false))
    ensures var ran := Exchange(false, service, Endpoint(url), o);
      && ran.Finished? && ran.err == Nil
      && ServedPack(o, KindOf(service).value, url, Served(StatusOK, Chain(head, ran.trace)))
  {
    var ep := Endpoint(url);
    var kind := KindOf(service).value;
    var ran := Exchange(false, service, ep, o);
    if service == ReceiveService {
      ExchangePush(ep, o);
    } else {
      ExchangeFetch(ep, o);
    }
    assert ServiceOf(kind) == service;
    PackServedFrom(o, kind, url, head, ran);
  }

  /** The exchange of a healthy advertisement, behind headers that set the
      advertisement content type and `Cache-Control`. */
  lemma AdvertisementExchangeServed(o: Oracle, service: string, url: string, head: seq<Event>)
    requires Healthy(o) && KindOf(service).Some?
    requires HeadersOnly(head, ContentType(service, true))
    ensures var ran := Exchange(true, service, Endpoint(url), o);
      && ran.Finished? && ran.err == Nil
      && ServedAdvertisement(o, service, url, Served(StatusOK, Chain(head, ran.trace)))
  {
    var ran := Exchange(true, service, Endpoint(url), o);
    AdvertisementServedFrom(o, service, url, head, ran);
  }
}

/** The last step every executor shares: run the pack operation on the
    session and encode its response. */
module PackOperation {
  import opened Go
  import opened Transport
  import opened Http

  /** Whether the operation of `kind` answered with a response to encode. */
  predicate Answered(o: Oracle, kind: SessionKind)
  {
    PackAnswer(o, kind).Ok? && PackAnswer(o, kind).value.Ptr?
  }

  /** `response, err := session.UploadPack(…)` or `ReceivePack(…)`, then
      `response.Encode(writer)`: the operation's error is returned, a nil
      response is answered with `onNil`, and a response is encoded and the
      encoder's error returned. */
  function Operate(kind: SessionKind, o: Oracle, onNil: Error): (r: Run)
    ensures r.Finished? && Quiet(r.trace) && Sessions(r.trace) == [] && RequestRefs !in r.trace && !ReadsBody(r.trace)
    ensures |r.trace| > 0 && r.trace[0] == RunPack(kind) && RunsPack(r.trace)
    ensures PackAnswer(o, kind).Err? ==> r.err == Error(PackAnswer(o, kind).msg)
    ensures PackAnswer(o, kind) == Ok(Null) ==> r.err == onNil
    ensures Encoded(r.trace) == (if Answered(o, kind) then [PackReport(kind, PackAnswer(o, kind).value.deref)] else [])
    ensures Reaches(r.trace, AtWrite) <==> Answered(o, kind)
    ensures Answered(o, kind) ==> r.err == o.encode
  {
    var ran := Then([], RunPack(kind));
    match PackAnswer(o, kind)
    case Err(m) => Finished(Error(m), ran)
    case Ok(Null) => Finished(onNil, ran)
    case Ok(Ptr(response)) => Finished(o.encode, Then(ran, Encode(PackReport(kind, response))))
  }
}

/** internal/pack/upload.go: the fetch executor. */
module PackUpload {
  import opened Go
  import opened Transport
  import opened Http
  import opened SmartHttp
  import opened PackOperation

  const NoUploadSession := "Could not create upload-pack session"

  /** Decode the body, check the session's capability, run the fetch and
      encode its response. A nil response with a nil error is a silent
      success: nothing is written and no error is returned. */
  function Upload(session: Ptr<Session>, o: Oracle): (r: Run)
    ensures r.Finished? && Quiet(r.trace) && Sessions(r.trace) == [] && RequestRefs !in r.trace
    ensures |r.trace| > 0 && r.trace[0] == DecodeBody(UploadPackSession)
    ensures o.decodeUpload.Error? ==> r.err == o.decodeUpload && r.trace == [DecodeBody(UploadPackSession)]
    ensures RunsPack(r.trace) <==> o.decodeUpload.Nil? && Capable(session, UploadPackSession)
    ensures o.decodeUpload.Nil? && !Capable(session, UploadPackSession) ==> r.err == Error(NoUploadSession)
    ensures RunsPack(r.trace) && o.upload.Err? ==> r.err == Error(o.upload.msg)
    ensures RunsPack(r.trace) && o.upload == Ok(Null) ==> r.err == Nil
    ensures Encoded(r.trace) ==
      (if ExchangeSucceeds(o, UploadPackSession, session) then [PackReport(UploadPackSession, o.upload.value.deref)] else [])
    ensures ExchangeSucceeds(o, UploadPackSession, session) ==> r.err == o.encode
  {
    var decoded := Then([], DecodeBody(UploadPackSession));
    if o.decodeUpload.Error? then Finished(o.decodeUpload, decoded)
    else if !Capable(session, UploadPackSession) then Finished(Error(NoUploadSession), decoded)
    else
      var ran := Operate(UploadPackSession, o, Nil);
      Finished(ran.err, Chain(decoded, ran.trace))
  }

  /** The executor meets the design's contract except on a nil response. */
  lemma UploadMeetsContract(session: Ptr<Session>, o: Oracle)
    requires o.upload != Ok(Null)
    ensures ExecutorContract(o, UploadPackSession, session, Upload(session, o))
  {
    var r := Upload(session, o);
    if !ExchangeSucceeds(o, UploadPackSession, session) {
      assert r.err.Error?;
    }
  }

  /** A nil response is reported as success although nothing was written,
      where the design requires an error. */
  lemma UploadNilResponseIsSilent(session: Ptr<Session>, o: Oracle)
    requires o.decodeUpload.Nil? && Capable(session, UploadPackSession) && o.upload == Ok(Null)
    ensures Upload(session, o).err == Nil && Encoded(Upload(session, o).trace) == []
    ensures !ExecutorContract(o, UploadPackSession, session, Upload(session, o))
  {
    assert !ExchangeSucceeds(o, UploadPackSession, session);
    assert RunsPack(Upload(session, o).trace);
  }
}

/** internal/pack/receive.go: the push executor. */
module PackReceive {
  import opened Go
  import opened Transport
  import opened Http
  import opened SmartHttp
  import opened PackOperation

  const NoReceiveSession := "Could not create receive-pack session"
  const NoReceiveResponse := "Could not generate receive pack response from pack session"

  /** Decode the body, check the session's capability, run the push and
      encode its report; a nil report is an error. */
  function Receive(session: Ptr<Session>, o: Oracle): (r: Run)
    ensures r.Finished? && Quiet(r.trace) && Sessions(r.trace) == [] && RequestRefs !in r.trace
    ensures |r.trace| > 0 && r.trace[0] == DecodeBody(ReceivePackSession)
    ensures o.decodeReceive.Error? ==> r.err == o.decodeReceive && r.trace == [DecodeBody(ReceivePackSession)]
    ensures RunsPack(r.trace) <==> o.decodeReceive.Nil? && Capable(session, ReceivePackSession)
    ensures o.decodeReceive.Nil? && !Capable(session, ReceivePackSession) ==> r.err == Error(NoReceiveSession)
    ensures RunsPack(r.trace) && o.receive.Err? ==> r.err == Error(o.receive.msg)
    ensures RunsPack(r.trace) && o.receive == Ok(Null) ==> r.err == Error(NoReceiveResponse)
    ensures ExchangeSucceeds(o, ReceivePackSession, session) ==> r.err == o.encode
  {
    var decoded := Then([], DecodeBody(ReceivePackSession));
    if o.decodeReceive.Error? then Finished(o.decodeReceive, decoded)
    else if !Capable(session, ReceivePackSession) then Finished(Error(NoReceiveSession), decoded)
    else
      var ran := Operate(ReceivePackSession, o, Error(NoReceiveResponse));
      Finished(ran.err, Chain(decoded, ran.trace))
  }

  /** The push executor meets the design's contract on every input. */
  lemma ReceiveMeetsContract(session: Ptr<Session>, o: Oracle)
    ensures ExecutorContract(o, ReceivePackSession, session, Receive(session, o))
  {
  }
}

/** cgi/internal/pack/upload.go: a fetch executor that opens its own session. */
module CgiPackUpload {
  import opened Go
  import opened Transport
  import opened Http
  import opened SmartHttp
  import opened PackOperation

  const NoUploadSession := "Could not create upload-pack session"
  const NoUploadResponse := "Could not generate upload pack response from pack session"

  /** The session `server.NewUploadPackSession` leaves: nil when it failed. */
  function OpenedUpload(o: Oracle): Ptr<Session>
  {
    if o.openUpload.Ok? then Ptr(o.openUpload.value) else Null
  }

  /** Open an upload-pack session, then decode the body before looking at
      the session: the session error is overwritten by the decode result and
      never returned, and a failed session reads as one without the
      capability. */
  function Upload(endpoint: Endpoint, o: Oracle): (r: Run)
    ensures r.Finished? && Quiet(r.trace) && RequestRefs !in r.trace
    ensures Sessions(r.trace) == [UploadPackSession]
    ensures |r.trace| > 1 && r.trace[0] == OpenSession(UploadPackSession, endpoint.url) && r.trace[1] == DecodeBody(UploadPackSession)
    ensures o.decodeUpload.Error? ==> r.err == o.decodeUpload && !RunsPack(r.trace)
    ensures o.openUpload.Err? ==> r.err == (if o.decodeUpload.Error? then o.decodeUpload else Error(NoUploadSession))
    ensures RunsPack(r.trace) <==> o.decodeUpload.Nil? && Capable(OpenedUpload(o), UploadPackSession)
    ensures RunsPack(r.trace) && o.upload.Err? ==> r.err == Error(o.upload.msg)
    ensures RunsPack(r.trace) && o.upload == Ok(Null) ==> r.err == Error(NoUploadResponse)
  {
    var started := NewSession(o, UploadPackSession, endpoint);
    assert started.session == OpenedUpload(o);
    var decoded := Then(started.trace, DecodeBody(UploadPackSession));
    if o.decodeUpload.Error? then Finished(o.decodeUpload, decoded)
    else if !Capable(started.session, UploadPackSession) then Finished(Error(NoUploadSession), decoded)
    else
      var ran := Operate(UploadPackSession, o, Error(NoUploadResponse));
      Finished(ran.err, Chain(decoded, ran.trace))
  }

  /** Unlike the other fetch executors, this one meets the design's contract
      on every input, with the session it opened itself. */
  lemma UploadMeetsContract(endpoint: Endpoint, o: Oracle)
    ensures ExecutorContract(o, UploadPackSession, OpenedUpload(o), Upload(endpoint, o))
  {
  }
}

/** internal/pack.go: the earlier executors, `UploadPack` and `ReceivePack`. */
module InternalPack {
  import opened Go
  import opened Transport
  import opened Http
  import opened SmartHttp
  import opened PackOperation
  import PackUpload

  const NoUploadSession := "Could not create upload-pack session"
  const NoReceiveSession := "Could not create receive-pack session"

  /** The same pipeline internal/pack/upload.go later kept unchanged. */
  function UploadPack(session: Ptr<Session>, o: Oracle): (r: Run)
    ensures r == PackUpload.Upload(session, o)
    ensures o.decodeUpload.Error? ==> r.err == o.decodeUpload && !RunsPack(r.trace)
    ensures o.decodeUpload.Nil? && !Capable(session, UploadPackSession) ==> r.err == Error(NoUploadSession) && !RunsPack(r.trace)
    ensures RunsPack(r.trace) && o.upload == Ok(Null) ==> r.err == Nil && Encoded(r.trace) == []
  {
    var decoded := Then([], DecodeBody(UploadPackSession));
    if o.decodeUpload.Error? then Finished(o.decodeUpload, decoded)
    else if !Capable(session, UploadPackSession) then Finished(Error(NoUploadSession), decoded)
    else
      var ran := Operate(UploadPackSession, o, Nil);
      Finished(ran.err, Chain(decoded, ran.trace))
  }

  /** The body is decoded but the decode error is dropped: the push runs on
      whatever was decoded. A nil report with a nil error is a silent
      success. */
  function ReceivePack(session: Ptr<Session>, o: Oracle): (r: Run)
    ensures r.Finished? && Quiet(r.trace) && Sessions(r.trace) == [] && RequestRefs !in r.trace
    ensures |r.trace| > 0 && r.trace[0] == DecodeBody(ReceivePackSession)
    ensures RunsPack(r.trace) <==> Capable(session, ReceivePackSession)
    ensures !Capable(session, ReceivePackSession) ==> r.err == Error(NoReceiveSession)
    ensures RunsPack(r.trace) && o.receive.Err? ==> r.err == Error(o.receive.msg)
    ensures RunsPack(r.trace) && o.receive == Ok(Null) ==> r.err == Nil && Encoded(r.trace) == []
    ensures Encoded(r.trace) ==
      (if Capable(session, ReceivePackSession) && o.receive.Ok? && o.receive.value.Ptr?
       then [PackReport(ReceivePackSession, o.receive.value.deref)] else [])
    ensures Reaches(r.trace, AtWrite) ==> r.err == o.encode
  {
    var decoded := Then([], DecodeBody(ReceivePackSession));
    if !Capable(session, ReceivePackSession) then Finished(Error(NoReceiveSession), decoded)
    else
      var ran := Operate(ReceivePackSession, o, Nil);
      Finished(ran.err, Chain(decoded, ran.trace))
  }

  /** With a body that decodes and a push that returns a report, the
      executor meets the design's contract. */
  lemma ReceivePackMeetsContract(session: Ptr<Session>, o: Oracle)
    requires o.decodeReceive.Nil? && o.receive != Ok(Null)
    ensures ExecutorContract(o, ReceivePackSession, session, ReceivePack(session, o))
  {
    var r := ReceivePack(session, o);
    var kind := ReceivePackSession;
    if Capable(session, ReceivePackSession) && o.receive.Ok? {
      EncodedReaches(r.trace);
      assert r.err == o.encode;
    }
    assert r.Finished? && Quiet(r.trace) && RequestRefs !in r.trace;
    assert RunsPack(r.trace) <==> DecodeAnswer(o, kind).Nil? && Capable(session, kind);
    assert Encoded(r.trace) ==
         (if ExchangeSucceeds(o, kind, session) then [PackReport(kind, PackAnswer(o, kind).value.deref)] else []);
    assert r.err.Nil? <==> ExchangeSucceeds(o, kind, session) && o.encode.Nil?;
  }

  /** An undecodable body still reaches the push, and the push's report is
      written, where the design requires the decode error. */
  lemma ReceivePackIgnoresDecodeError(session: Ptr<Session>, o: Oracle)
    requires o.decodeReceive.Error? && Capable(session, ReceivePackSession)
    requires o.receive.Ok? && o.receive.value.Ptr? && o.encode.Nil?
    ensures RunsPack(ReceivePack(session, o).trace)
    ensures ReceivePack(session, o).err == Nil
    ensures !ExecutorContract(o, ReceivePackSession, session, ReceivePack(session, o))
  {
  }
}

/** The path and header constants of internal/paths.go and internal/headers.go. */
module Paths {
  const InfoPath := "info"
  const RefsPath := "refs"
  const ReceivePackPath := "git-receive-pack"
  const UploadPackPath := "git-upload-pack"

  /** The two trailing segments of an advertisement request. The file that
      defines it is not part of this model; both parsers compare against
      this value. */
  const InfoRefsPath := "info/refs"

  const ContentTypeHeaderKey := "Content-Type"
  const PlainContentValue := "text/plain; charset=utf-8"
  const CacheControlHeaderKey := "Cache-Control"
  const NoCacheValue := "no-cache"
}

/** The go-git transport collaborator, kept abstract: every call it answers
    is an outcome chosen by an `Oracle`, and the gateway only passes those
    outcomes along. */
module Transport {
  import opened Go

  datatype SessionKind = ReceivePackSession | UploadPackSession

  /** An opened session; the flags say whether it implements go-git's
      `UploadPackSession` and `ReceivePackSession` interfaces, which the
      executors check with a type assertion. */
  datatype Session = Session(uploadCapable: bool, receiveCapable: bool)

  /** A parsed `transport.Endpoint`, known by the address it was parsed from. */
  datatype Endpoint = Endpoint(url: string)

  /** The answer of a collaborator call: a value, or an error message. */
  datatype Call<T> = Ok(value: T) | Err(msg: string)

  /** One framed line of a pkt-line stream; `Flush` is the flush marker. */
  datatype PktLine = Line(text: string) | Flush

  /** `packp.AdvRefs`: the framing prefix and the (opaque) advertised references. */
  datatype AdvRefs = AdvRefs(prefix: seq<PktLine>, refs: seq<string>)

  /** The opaque response of a pack operation (report status or fetch response). */
  datatype Report = Report(body: seq<string>)

  /** What one `Encode` call serialises to the response writer. */
  datatype Payload = Advertisement(adv: AdvRefs) | PackReport(kind: SessionKind, report: Report)

  /** The collaborator's answers for one request. Each call the gateway makes
      happens at most once per request, so one answer per call suffices;
      `endpoint` is `transport.NewEndpoint`'s verdict on an address. */
  datatype Oracle = Oracle(
    endpoint: string -> Error,
    openReceive: Call<Session>,
    openUpload: Call<Session>,
    decodeReceive: Error,
    decodeUpload: Error,
    receive: Call<Ptr<Report>>,
    upload: Call<Ptr<Report>>,
    advertised: Call<AdvRefs>,
    encode: Error)

  function OpenAnswer(o: Oracle, kind: SessionKind): Call<Session>
  {
    match kind
    case ReceivePackSession => o.openReceive
    case UploadPackSession => o.openUpload
  }

  function DecodeAnswer(o: Oracle, kind: SessionKind): Error
  {
    match kind
    case ReceivePackSession => o.decodeReceive
    case UploadPackSession => o.decodeUpload
  }

  function PackAnswer(o: Oracle, kind: SessionKind): Call<Ptr<Report>>
  {
    match kind
    case ReceivePackSession => o.receive
    case UploadPackSession => o.upload
  }

  /** Whether a (possibly nil) session passes the executor's type assertion
      for `kind`; a nil interface never does. */
  predicate Capable(session: Ptr<Session>, kind: SessionKind)
  {
    match session
    case Null => false
    case Ptr(s) => if kind == UploadPackSession then s.uploadCapable else s.receiveCapable
  }

  /** `transport.NewEndpoint`: the endpoint for `url`, or the parser's error. */
  function NewEndpoint(o: Oracle, url: string): (r: Call<Endpoint>)
    ensures r.Ok? <==> o.endpoint(url).Nil?
    ensures r.Ok? ==> r.value.url == url
    ensures r.Err? ==> r.msg == o.endpoint(url).msg
  {
    match o.endpoint(url)
    case Nil => Ok(Endpoint(url))
    case Error(m) => Err(m)
  }
}

/** What the gateway does to its HTTP response and its collaborators, as an
    ordered trace of events, and the outcome of a handler. */
module Http {
  import opened Go
  import opened Transport
  import opened UrlQuery
  import Paths

  const StatusOK := 200
  const StatusBadRequest := 400
  const StatusForbidden := 403
  const StatusNotAcceptable := 406

  /** The parts of an `http.Request` the handlers read; the body is read only
      through the oracle's decoders. */
  datatype Request = Request(host: string, path: string, query: Query, tls: bool)

  datatype Event =
    | SetHeader(key: string, value: string)
    | AddHeader(key: string, value: string)
    | OpenSession(kind: SessionKind, url: string)
    | DecodeBody(kind: SessionKind)
    | RunPack(kind: SessionKind)
    | RequestRefs
    | Encode(payload: Payload)
    | HttpError(status: int, text: string)

  /** A step returning a Go `error`, with the events it caused. */
  datatype Run = Finished(err: Error, trace: seq<Event>) | Crashed(fault: Fault, trace: seq<Event>)

  /** A handler's outcome: the status the handler sets, or a panic. After
      an encode net/http has already sent 200; a later status is still
      recorded. */
  datatype Response = Served(status: int, trace: seq<Event>) | Aborted(fault: Fault, trace: seq<Event>)

  /** The points of a trace at which header values matter. */
  datatype Milestone = AtSession | AtBodyRead | AtWrite

  predicate IsHeaderEvent(e: Event)
  {
    e.SetHeader? || e.AddHeader? || e.HttpError?
  }

  predicate Marks(e: Event, m: Milestone)
  {
    match m
    case AtSession => e.OpenSession?
    case AtBodyRead => e.DecodeBody?
    case AtWrite => e.Encode?
  }

  /** The value `Header().Get(key)` returns after `e`, when it returned `cur`
      before. `http.Error` itself sets a plain-text content type. */
  function Apply(key: string, cur: string, e: Event): string
  {
    match e
    case SetHeader(k, v) => if k == key then v else cur
    case AddHeader(k, v) => if k == key && cur == "" then v else cur
    case HttpError(_, _) => if key == Paths.ContentTypeHeaderKey then Paths.PlainContentValue else cur
    case _ => cur
  }

  /** `Header().Get(key)` after the whole trace, starting from `cur`. */
  function HeaderAfter(t: seq<Event>, key: string, cur: string): string
    decreases |t|
  {
    if |t| == 0 then cur else HeaderAfter(t[1..], key, Apply(key, cur, t[0]))
  }

  /** `Header().Get(key)` at the first event marking `m`, if there is one. */
  function HeaderAt(t: seq<Event>, key: string, m: Milestone, cur: string): Option<string>
    decreases |t|
  {
    if |t| == 0 then None
    else if Marks(t[0], m) then Some(cur)
    else HeaderAt(t[1..], key, m, Apply(key, cur, t[0]))
  }

  /** Some event of the trace marks `m`. */
  predicate Reaches(t: seq<Event>, m: Milestone)
    decreases |t|
  {
    |t| > 0 && (Marks(t[0], m) || Reaches(t[1..], m))
  }

  /** No header is touched. */
  predicate Quiet(t: seq<Event>)
    decreases |t|
  {
    |t| == 0 || (!IsHeaderEvent(t[0]) && Quiet(t[1..]))
  }

  /** The kinds of the sessions opened, in order. */
  function Sessions(t: seq<Event>): seq<SessionKind>
    decreases |t|
  {
    if |t| == 0 then []
    else (if t[0].OpenSession? then [t[0].kind] else []) + Sessions(t[1..])
  }

  /** What was encoded to the response writer, in order. */
  function Encoded(t: seq<Event>): seq<Payload>
    decreases |t|
  {
    if |t| == 0 then []
    else (if t[0].Encode? then [t[0].payload] else []) + Encoded(t[1..])
  }

  predicate ReadsBody(t: seq<Event>)
  {
    DecodeBody(ReceivePackSession) in t || DecodeBody(UploadPackSession) in t
  }

  predicate RunsPack(t: seq<Event>)
  {
    RunPack(ReceivePackSession) in t || RunPack(UploadPackSession) in t
  }

  /** The header trace every handler starts with is followed by collaborator
      effects; these lemmas let the two be reasoned about separately. */
  lemma {:induction false} HeaderAfterAppend(a: seq<Event>, b: seq<Event>, key: string, cur: string)
    ensures HeaderAfter(a + b, key, cur) == HeaderAfter(b, key, HeaderAfter(a, key, cur))
    decreases |a|
  {
    if |a| > 0 {
      assert (a + b)[1..] == a[1..] + b;
      HeaderAfterAppend(a[1..], b, key, Apply(key, cur, a[0]));
    } else {
      assert a + b == b;
    }
  }

  /** A header after one more event. */
  lemma HeaderAfterThen(t: seq<Event>, e: Event, key: string, cur: string)
    ensures HeaderAfter(t + [e], key, cur) == Apply(key, HeaderAfter(t, key, cur), e)
  {
    HeaderAfterAppend(t, [e], key, cur);
    assert [e][1..] == [];
  }

  lemma {:induction false} HeaderAtAppend(a: seq<Event>, b: seq<Event>, key: string, m: Milestone, cur: string)
    ensures HeaderAt(a + b, key, m, cur) ==
      if Reaches(a, m) then HeaderAt(a, key, m, cur) else HeaderAt(b, key, m, HeaderAfter(a, key, cur))
    decreases |a|
  {
    if |a| > 0 {
      assert (a + b)[1..] == a[1..] + b;
      HeaderAtAppend(a[1..], b, key, m, Apply(key, cur, a[0]));
    } else {
      assert a + b == b;
    }
  }

  lemma {:induction false} HeaderAtQuiet(t: seq<Event>, key: string, m: Milestone, cur: string)
    requires Quiet(t)
    ensures HeaderAt(t, key, m, cur) == if Reaches(t, m) then Some(cur) else None
    ensures HeaderAfter(t, key, cur) == cur
    decreases |t|
  {
    if |t| > 0 {
      HeaderAtQuiet(t[1..], key, m, cur);
    }
  }

  lemma {:induction false} SessionsAppend(a: seq<Event>, b: seq<Event>)
    ensures Sessions(a + b) == Sessions(a) + Sessions(b)
    decreases |a|
  {
    if |a| > 0 {
      assert (a + b)[1..] == a[1..] + b;
      SessionsAppend(a[1..], b);
    } else {
      assert a + b == b;
    }
  }

  lemma {:induction false} EncodedAppend(a: seq<Event>, b: seq<Event>)
    ensures Encoded(a + b) == Encoded(a) + Encoded(b)
    decreases |a|
  {
    if |a| > 0 {
      assert (a + b)[1..] == a[1..] + b;
      EncodedAppend(a[1..], b);
    } else {
      assert a + b == b;
    }
  }

  lemma {:induction false} ReachesAppend(a: seq<Event>, b: seq<Event>, m: Milestone)
    ensures Reaches(a + b, m) <==> Reaches(a, m) || Reaches(b, m)
    decreases |a|
  {
    if |a| > 0 {
      assert (a + b)[1..] == a[1..] + b;
      ReachesAppend(a[1..], b, m);
    } else {
      assert a + b == b;
    }
  }

  lemma {:induction false} QuietAppend(a: seq<Event>, b: seq<Event>)
    ensures Quiet(a + b) <==> Quiet(a) && Quiet(b)
    decreases |a|
  {
    if |a| > 0 {
      assert (a + b)[1..] == a[1..] + b;
      QuietAppend(a[1..], b);
    } else {
      assert a + b == b;
    }
  }

  /** Something encoded means the trace reaches a write. */
  lemma {:induction false} EncodedReaches(t: seq<Event>)
    ensures Encoded(t) != [] ==> Reaches(t, AtWrite)
    decreases |t|
  {
    if |t| > 0 && !t[0].Encode? {
      EncodedReaches(t[1..]);
    }
  }

  /** Everything the trace functions say about a single event. */
  lemma One(e: Event)
    ensures Sessions([e]) == if e.OpenSession? then [e.kind] else []
    ensures Encoded([e]) == if e.Encode? then [e.payload] else []
    ensures Quiet([e]) <==> !IsHeaderEvent(e)
    ensures Reaches([e], AtSession) <==> Marks(e, AtSession)
    ensures Reaches([e], AtBodyRead) <==> Marks(e, AtBodyRead)
    ensures Reaches([e], AtWrite) <==> Marks(e, AtWrite)
    ensures ReadsBody([e]) <==> e.DecodeBody?
    ensures RunsPack([e]) <==> e.RunPack?
    ensures RequestRefs in [e] <==> e.RequestRefs?
  {
    assert [e][1..] == [];
    assert [e][0] == e;
    if e.DecodeBody? || e.RunPack? {
      assert e.kind == ReceivePackSession || e.kind == UploadPackSession;
    }
  }

  /** Everything the trace functions say about a concatenation. */
  lemma Concat(a: seq<Event>, b: seq<Event>)
    ensures Sessions(a + b) == Sessions(a) + Sessions(b)
    ensures Encoded(a + b) == Encoded(a) + Encoded(b)
    ensures Quiet(a + b) <==> Quiet(a) && Quiet(b)
    ensures Reaches(a + b, AtSession) <==> Reaches(a, AtSession) || Reaches(b, AtSession)
    ensures Reaches(a + b, AtBodyRead) <==> Reaches(a, AtBodyRead) || Reaches(b, AtBodyRead)
    ensures Reaches(a + b, AtWrite) <==> Reaches(a, AtWrite) || Reaches(b, AtWrite)
    ensures ReadsBody(a + b) <==> ReadsBody(a) || ReadsBody(b)
    ensures RunsPack(a + b) <==> RunsPack(a) || RunsPack(b)
    ensures RequestRefs in a + b <==> RequestRefs in a || RequestRefs in b
  {
    SessionsAppend(a, b);
    EncodedAppend(a, b);
    ReachesAppend(a, b, AtSession);
    ReachesAppend(a, b, AtBodyRead);
    ReachesAppend(a, b, AtWrite);
    QuietAppend(a, b);
  }

  /** `a` followed by `b`: the trace functions of the whole, from those of the
      parts. Handlers build their traces with `Chain` and `Then`. */
  function Chain(a: seq<Event>, b: seq<Event>): (r: seq<Event>)
    ensures r == a + b
    ensures Sessions(r) == Sessions(a) + Sessions(b)
    ensures Encoded(r) == Encoded(a) + Encoded(b)
    ensures Quiet(r) <==> Quiet(a) && Quiet(b)
    ensures forall m :: Reaches(r, m) <==> Reaches(a, m) || Reaches(b, m)
    ensures ReadsBody(r) <==> ReadsBody(a) || ReadsBody(b)
    ensures RunsPack(r) <==> RunsPack(a) || RunsPack(b)
    ensures RequestRefs in r <==> RequestRefs in a || RequestRefs in b
  {
    Concat(a, b);
    forall key, cur ensures HeaderAfter(a + b, key, cur) == HeaderAfter(b, key, HeaderAfter(a, key, cur)) {
      HeaderAfterAppend(a, b, key, cur);
    }
    forall key, m, cur ensures HeaderAt(a + b, key, m, cur) ==
      if Reaches(a, m) then HeaderAt(a, key, m, cur) else HeaderAt(b, key, m, HeaderAfter(a, key, cur)) {
      HeaderAtAppend(a, b, key, m, cur);
    }
    forall m ensures Reaches(a + b, m) <==> Reaches(a, m) || Reaches(b, m) {
      ReachesAppend(a, b, m);
    }
    a + b
  }

  /** `t` followed by the single event `e`. */
  function Then(t: seq<Event>, e: Event): (r: seq<Event>)
    ensures r == t + [e]
    ensures Sessions(r) == Sessions(t) + (if e.OpenSession? then [e.kind] else [])
    ensures Encoded(r) == Encoded(t) + (if e.Encode? then [e.payload] else [])
    ensures Quiet(r) <==> Quiet(t) && !IsHeaderEvent(e)
    ensures forall m :: Reaches(r, m) <==> Reaches(t, m) || Marks(e, m)
    ensures ReadsBody(r) <==> ReadsBody(t) || e.DecodeBody?
    ensures RunsPack(r) <==> RunsPack(t) || e.RunPack?
    ensures RequestRefs in r <==> RequestRefs in t || e.RequestRefs?
  {
    One(e);
    assert forall key, cur :: HeaderAfter([e], key, cur) == Apply(key, cur, e) by {
      assert [e][1..] == [];
    }
    assert forall key, m, cur :: HeaderAt([e], key, m, cur) == (if Marks(e, m) then Some(cur) else None) by {
      assert [e][1..] == [];
    }
    Chain(t, [e])
  }

  /** Chaining is associative. */
  lemma ChainAssociative(a: seq<Event>, b: seq<Event>, c: seq<Event>)
    ensures Chain(Chain(a, b), c) == a + Chain(b, c)
  {
    assert (a + b) + c == a + (b + c);
  }

  /** The session traces `Chain` composes with are quiet: a quiet tail leaves
      every header as it found it. */
  lemma QuietTail(a: seq<Event>, b: seq<Event>, key: string, m: Milestone, cur: string)
    requires Quiet(b)
    ensures HeaderAfter(a + b, key, cur) == HeaderAfter(a, key, cur)
    ensures HeaderAt(a + b, key, m, cur) ==
      if Reaches(a, m) then HeaderAt(a, key, m, cur)
      else if Reaches(b, m) then Some(HeaderAfter(a, key, cur)) else None
  {
    HeaderAfterAppend(a, b, key, cur);
    HeaderAtAppend(a, b, key, m, cur);
    HeaderAtQuiet(b, key, m, HeaderAfter(a, key, cur));
  }

  /** `session, err = server.New…PackSession(endpoint, nil)`: go-git answers
      an error with a nil session. */
  datatype Opened = Opened(session: Ptr<Session>, err: Error, trace: seq<Event>)

  function NewSession(o: Oracle, kind: SessionKind, endpoint: Endpoint): (r: Opened)
    ensures r.trace == Then([], OpenSession(kind, endpoint.url))
    ensures r.err.Nil? <==> OpenAnswer(o, kind).Ok?
    ensures r.session.Ptr? <==> r.err.Nil?
    ensures r.session.Ptr? ==> r.session.deref == OpenAnswer(o, kind).value
    ensures r.err.Error? ==> r.err.msg == OpenAnswer(o, kind).msg
  {
    match OpenAnswer(o, kind)
    case Ok(s) => Opened(Ptr(s), Nil, Then([], OpenSession(kind, endpoint.url)))
    case Err(m) => Opened(Null, Error(m), Then([], OpenSession(kind, endpoint.url)))
  }

  /** The state left when neither session branch ran: nil session, error
      unchanged. */
  const NotOpened := Opened(Null, Nil, [])
}

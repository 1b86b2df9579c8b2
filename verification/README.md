# Git smart-HTTP gateway: request dispatch and framing

This project models the request-dispatch and framing core of a Go HTTP
gateway that serves Git repositories over the smart HTTP transport. The
gateway handles three endpoints:

- the reference advertisement, `<repo>/info/refs?service=<service>`;
- the fetch, `<repo>/git-upload-pack`;
- the push, `<repo>/git-receive-pack`.

For each request the gateway:

1. parses the request path into a repository address and a Git service;
2. opens a go-git transport session of the matching kind;
3. drives one protocol exchange;
4. sets `Cache-Control` and the content type;
5. frames the advertisement behind a `# service=<service>` line and a flush;
6. maps failures to HTTP statuses with a plain-text body.

The repository holds several snapshots of this core side by side, and each
is modelled on its own:

- the first handler (`handler.go`);
- the handler with a `handleRequest` helper (`server/handler.go`);
- the CGI variant (`cgi/…`);
- the handler-per-route variant (`internal/handlers/…`);
- the request-package executors (`internal/request/…`);
- the shared parsers and executors under `internal/`.

Nothing is executed. Each snapshot is a pure function over an explicit
model of its environment:

- **Collaborators.** The go-git transport (endpoint parsing, session
  creation, body decoding, the push and fetch operations, reference
  advertisement and the wire encoders) is an `Oracle`. It holds one answer
  per call, because each call happens at most once per request.
- **Effects.** What a handler does to its response and its collaborators is
  an ordered trace of `Event`s:
  - header sets and adds;
  - session opens;
  - body decodes;
  - pack operations;
  - reference requests;
  - encodes;
  - `http.Error`.
- **Outcomes.**
  - A step returning a Go `error` is a `Run`.
  - A handler's outcome is a `Response`: the status the handler sets, or a
    Go panic.
  - Panics carry their kind: index out of range, slice out of range, or nil
    dereference.
- **The design each snapshot is held against** is stated once, in
  `SmartHttp`:
  - the content type and its inverse;
  - the endpoint address and its inverse;
  - the advertisement prefix and its inverse;
  - `ExecutorContract`, `PackContract` and `AdvertiseContract`;
  - `ServedPack` and `ServedAdvertisement`, what a client of a healthy
    gateway sees.

Modules follow the source files:

- `Go`, `GoStrings`, `UrlQuery`: Go's run-time semantics, the `strings`
  functions used, and `url.Values`.
- `Paths`, `Transport`, `Http`: constants, collaborators, traces.
- `SmartHttp`, `Framing`: the wire contract and the advertisement step.
- `Routing`, `Dispatch`: the path parsing and the session step that
  `handler.go` and `server/handler.go` share line for line.
- `RootHandler`, `ServerHandler`, `CgiHandler`, `InfoRefsHandler`,
  `ReceivePackHandler`: the handlers.
- `InternalRequest`, `InternalParseRequest`, `CgiParseRequest`,
  `RequestParse`: the parsers.
- `PackOperation`, `PackUpload`, `PackReceive`, `CgiPackUpload`,
  `InternalPack`: the executors.
- `InfoRefsAdvertise`, `RequestDo`, `RequestRequest`: the advertisement and
  the request-package executors.

`handler.go` and `server/handler.go` each carry private copies of
`uploadPack` and `receivePack`. Their text is identical to
`internal/pack.go`, so `Dispatch` uses `InternalPack` for both.

`internal/info_refs.go`, `internal/info_refs/advertise.go` and
`cgi/internal/info_refs/advertise.go` are the same function, modelled once
as `InfoRefsAdvertise.Advertise`.

`internal/request/request.go` repeats the `Parse` of
`internal/request/parse.go` line for line, so `RequestParse.Parse` models
both.

## Where the code and the design disagree

The model follows the code in each case below. The lemma named in each item
proves the behaviour.

**Addresses**

- **Leading slash.** The design strips the leading slash from the
  repository path. Only `internal/parse_request.go` does. The CGI and
  per-route handlers keep it and produce `<scheme>://<host>//<repo>`
  (`CgiParseRequest.EndpointKeepsSlash`, `CgiHandler.AdvertisementAddress`,
  `InfoRefsHandler.RouteAddress`).
- **Scheme.** `handler.go` always addresses the repository over `https`,
  whatever the TLS state (`RootHandler.AlwaysHttps`).

**Status mapping**

The status mapping differs per snapshot:

| snapshot | rejected address | failures after the address |
|---|---|---|
| `handler.go` | 400 | 400 |
| `server/handler.go` | 400 | status 0 |
| `cgi/handler.go` | 406 | 400 |
| `internal/handlers/info_refs` | 406 | 400 on an encode error, silent 200 on a refs error |
| `internal/handlers/receive_pack` | 406 | 406 (session failure and push failure) |

**Nil sessions**

A service name outside the two pack services is not refused before a
session is needed. An advertisement for such a service leaves the session
nil, and asking it for references panics (`RootHandler.ServeUnknownAdvertisement`,
`ServerHandler.ServeUnknownAdvertisement`, `CgiHandler.ServeUnknownAdvertisement`,
`InfoRefsHandler.ServeNilSession`).

The per-route advertisement handler also drops the session's open error, so
a session that fails to open panics the same way.

**Path classification**

- The CGI `RetrieveService` indexes one past the last path segment. Every
  path that is not an advertisement path therefore panics, and the CGI pack
  endpoints are never served (`CgiHandler.ServeIndexPanic`,
  `CgiHandler.ServePackRequest`, `CgiHandler.ReceiveUnreachable`).
- `handler.go` and `server/handler.go` panic on the bare path `refs`, whose
  repository slice is out of range (`RootHandler.ServeBareRefs`,
  `ServerHandler.ServeBareRefs`).

**Executors**

- The fetch executors in `internal/pack.go` and `internal/pack/upload.go`
  report a nil fetch response as success, having written nothing. The
  design requires an error (`PackUpload.UploadNilResponseIsSilent`,
  `RequestDo.DoFetchNilResponse`).
- The push executor in `internal/pack.go` ignores the body's decode error
  (`InternalPack.ReceivePackIgnoresDecodeError`).

## Model

| member | source | states |
|---|---|---|
| SmartHttp.ContentType | handler.go:123 | the content type `application/x-<service>-<advertisement or result>` reads back to exactly the service and mode it was built from |
| SmartHttp.ContentTypeFormat | server/handler.go:125 | the handlers' `application/x-%v-%v` formatting with the suffix word is the design's content type |
| SmartHttp.ParseContentTypeExact | handler.go:123 | a string that reads back as a service and mode is the content type of that service and mode, so the formatting is injective |
| SmartHttp.RepoUrl | server/handler.go:113-118 | the endpoint `<scheme>://<host>/<repo>` reads back to exactly the repository path |
| SmartHttp.RepoOfExact | server/handler.go:118 | an address that reads back as a repository path is the address of that path |
| SmartHttp.AdvertisementPrefix | handler.go:141 | the advertisement prefix is two entries, the second a flush, and announces exactly the service |
| SmartHttp.AnnouncedExact | handler.go:141 | a prefix that announces a service is that service's announcement line and flush |
| SmartHttp.ServiceOf | internal/info_refs.go:23-27 | the service name of a session kind selects that kind again |
| SmartHttp.PlainHeaded | internal/handlers/info_refs/handler.go:28-29 | the per-route handlers begin with `Cache-Control: no-cache` and a plain content type and nothing else |
| SmartHttp.Retyped | handler.go:123 | setting the content type after headers that only set `Cache-Control: no-cache` leaves nothing else happened and both headers in place; every handler sets its content type this way (also server/handler.go:125, cgi/handler.go:49-50, internal/handlers/info_refs/handler.go:46-47) |
| SmartHttp.HttpErrorAfter | cgi/handler.go:40-43 | `http.Error` gives the status and message with a plain content type last, keeping every session, body read, pack run and encode before it |
| SmartHttp.PlainError | internal/handlers/receive_pack/handler.go:56-60 | resetting the plain content type and then `http.Error` is an error response with that status and message, keeping all earlier effects |
| SmartHttp.PackServedFrom | handler.go:123-136 | plain headers plus a healthy run that meets the pack contract is a served pack with the result content type in place at the write |
| SmartHttp.AdvertisementServedFrom | handler.go:123-144 | plain headers plus a healthy run that meets the advertisement contract is a served advertisement with its content type in place at the write |
| Framing.AdvertiseRefs | internal/info_refs.go:32-39 | references are asked for first; a fetch error is returned with nothing written; fetched references are written once, behind the announcement and flush, and the encoder's error is returned |
| Transport.NewEndpoint | handler.go:117-121 | the endpoint parses exactly when the transport accepts the address, keeps the address, and carries the transport's message otherwise |
| Http.NewSession | handler.go:125-136 | one session of the kind is opened at the endpoint; it is non-nil exactly when opening succeeded, otherwise the error is the transport's |
| GoStrings.Split | handler.go:97 | `strings.Split` yields at least one field, no field holds the separator, and joining the fields gives the string back |
| GoStrings.TrimSuffix | internal/parse_request.go:34 | one trailing occurrence is removed when present, otherwise the string is unchanged |
| GoStrings.TrimPrefix | server/handler.go:90 | one leading occurrence is removed when present, otherwise the string is unchanged |
| UrlQuery.First | internal/request/parse.go:34 | `query["service"][0]` yields the first value when there is one and panics with an index fault otherwise |
| Routing.RouteOf | handler.go:97-115 | the only panic of the routing is the repository slice, and a pack route always names one of the two pack services |
| Routing.RouteOfRouted | handler.go:97-115 | a path `<repo>/info/refs` or `<repo>/<pack service>` routes back to exactly `repo` and the requested service |
| Routing.RouteInvalid | handler.go:98-104 | a path is invalid exactly when its last segment names none of `refs`, `git-receive-pack` and `git-upload-pack` |
| Routing.RouteUnsliced | handler.go:107-115 | the repository slice is out of range exactly for the bare path `refs` |
| Dispatch.Exchange | handler.go:125-144 | the exchange touches no header, does nothing for an unknown pack service, is the shared advertisement for an advertisement, and panics only on a nil session |
| Dispatch.ExchangePush | handler.go:126-130 | with a decodable body and a non-nil report, a push meets the pack contract |
| Dispatch.ExchangeFetch | handler.go:131-135 | with a non-nil fetch response, a fetch meets the pack contract |
| Dispatch.ExchangeOpenFailure | handler.go:125-136 | a pack session that fails to open ends the exchange with the open error, having done nothing else |
| Dispatch.PackExchangeServed | handler.go:123-136 | a healthy pack exchange behind the result content type succeeds and is served as the design requires |
| Dispatch.AdvertisementExchangeServed | handler.go:138-144 | a healthy advertisement behind its content type succeeds and is served as the design requires |
| RootHandler.HandleError | handler.go:35-40 | an error response with the given code and message and a plain content type, keeping all earlier effects |
| RootHandler.Headed | handler.go:92 | before routing only `Cache-Control: no-cache` is set and nothing else is done |
| RootHandler.Typed | handler.go:123 | after the content type is set, nothing else has happened and both headers hold |
| RootHandler.ServeHTTP | handler.go:91-104 | 403 is answered only to an invalid route |
| RootHandler.Forward | handler.go:115-148 | a routed request is answered only with 200 or 400, and its only panic is a nil-session dereference |
| RootHandler.Finish | handler.go:138-148 | a panic of the exchange stays a panic; no error is 200; an error is 400 with its message, keeping every effect of the exchange |
| RootHandler.ServeRouted | handler.go:94-116 | a request on a routed path is forwarded with the repository path and service it names |
| RootHandler.AlwaysHttps | handler.go:116 | the repository on `/<repo>/…` is addressed as `https://<host>/<repo>` whether or not the request came over TLS |
| RootHandler.ForwardRejected | handler.go:117-121 | a rejected address is 400 with the transport's message, after only `Cache-Control` |
| RootHandler.ServeRejected | handler.go:115-121 | a rejected address is 400 with its message, and no session is opened |
| RootHandler.ServeAccepted | handler.go:117-136 | an accepted address sets the service's content type and runs the exchange at that address |
| RootHandler.ServePack | handler.go:123-136 | a pack request to a healthy gateway is served as the design requires at the https address of its repository |
| RootHandler.ServeAdvertisement | handler.go:109-144 | an advertisement for a known service on a healthy gateway is served as the design requires |
| RootHandler.ServeUnknownAdvertisement | handler.go:125-144 | an advertisement for an unknown service panics on the nil session, after its content type is set |
| RootHandler.ForwardOpenFailure | handler.go:125-148 | a pack session that fails to open is 400 with the open error: one session asked for, no body read, nothing written |
| RootHandler.ServeOpenFailure | handler.go:125-148 | the same for a request on `<repo>/<pack service>` |
| RootHandler.ServeForbidden | handler.go:95-104 | 403 is answered exactly when the last segment names no service, and it quotes the whole path |
| RootHandler.ServeBareRefs | handler.go:106-115 | the bare path `refs`, and no other, panics on the repository slice |
| ServerHandler.HandleRequest | server/handler.go:85-149 | no error means status 0; a non-zero status carries an error and comes before any session; the slice panic happens exactly for an unsliceable route |
| ServerHandler.Finish | server/handler.go:140-148 | the outcome keeps the exchange's trace and its error with status 0, or its panic |
| ServerHandler.ServeHTTP | server/handler.go:151-159 | every non-200 response ends with `http.Error` |
| ServerHandler.Report | server/handler.go:154-158 | an error becomes a plain-text error with the returned status, keeping all effects; no error is 200 with the trace unchanged; a panic stays one |
| ServerHandler.PrefixRemoved | server/handler.go:90 | a request on `/git/<path>` routes as `<path>` does |
| ServerHandler.HandleRejected | server/handler.go:117-123 | a rejected address returns 400 with the transport's error, after only the first headers |
| ServerHandler.HandleAccepted | server/handler.go:119-146 | an accepted address sets the content type and runs the exchange at that address |
| ServerHandler.HandledPack | server/handler.go:125-138 | a healthy pack request returns no error and its trace is the served pack |
| ServerHandler.ServePack | server/handler.go:125-158 | a pack request on `/git/<repo>/<pack service>` to a healthy gateway is served as the design requires |
| ServerHandler.HandledAdvertisement | server/handler.go:140-146 | a healthy advertisement returns no error and its trace is the served advertisement |
| ServerHandler.ServeAdvertisement | server/handler.go:107-158 | an advertisement for a known service on a healthy gateway is served as the design requires |
| ServerHandler.ServeUnknownAdvertisement | server/handler.go:127-146 | an advertisement for an unknown service panics on the nil session, after its content type is set |
| ServerHandler.ServeRejected | server/handler.go:117-123 | a rejected address is 400 with its message, and no session is opened |
| ServerHandler.HandledOpenFailure | server/handler.go:127-138 | a pack session that fails to open returns the open error with status 0, after one session and no body read |
| ServerHandler.ServeOpenFailure | server/handler.go:154-158 | that failure is reported through `http.Error` with status 0 |
| ServerHandler.RoutedStatus | server/handler.go:117-148 | a routed request returns only 400 or 0 |
| ServerHandler.ServeForbidden | server/handler.go:94-102 | 403 is answered exactly when the last segment names no service, and it quotes the path after `/git/` |
| ServerHandler.ServeBareRefs | server/handler.go:104-117 | the bare path `/git/refs`, and no other, panics on the repository slice |
| InternalRequest.Parse | internal/request.go:14-19 | the service is the text after the last slash, and the advertisement flag holds exactly when it is `refs` |
| InternalRequest.ParseLastSegment | internal/request.go:14-19 | the parse is determined by the last segment: every path ending in segment `seg` parses to `seg` |
| InternalParseRequest.ParsePath | internal/parse_request.go:13-30 | each service is returned exactly when the path ends in `/` plus that service's path; every other path is "Invalid request" quoting the path |
| InternalParseRequest.InfoRefsShape | internal/parse_request.go:20 | the last two of at least three segments join to `info/refs` exactly when the path ends in `/info/refs` |
| InternalParseRequest.RetrieveTransportEndpoint | internal/parse_request.go:33-43 | the address is built from the path without the trimmed suffix and without its leading slash; a path not ending in the suffix loses only its leading slash, and a path equal to the suffix addresses the empty path |
| InternalParseRequest.EndpointRoundTrip | internal/parse_request.go:33-43 | a path built from a repository and the suffix, with or without a leading slash, gives back that repository's address |
| CgiParseRequest.RetrieveService | cgi/internal/parse_request.go:13-24 | a path is recognised exactly when it is `info/refs` or ends in `/info/refs`; every other path panics on the index past the last segment |
| CgiParseRequest.ServiceOfParts | cgi/internal/parse_request.go:14-22 | the advertisement is returned exactly when the last two segments join to `info/refs`, and the only panic is an index fault |
| CgiParseRequest.ServiceAt | cgi/internal/parse_request.go:18-22 | the segment lookup panics exactly past the end, and otherwise names a pack service equal to that segment, or "" |
| CgiParseRequest.InfoRefsTail | cgi/internal/parse_request.go:16 | the last two segments join to `info/refs` exactly when the path is `info/refs` or ends in `/info/refs` |
| CgiParseRequest.RetrieveTransportEndpoint | cgi/internal/parse_request.go:27-36 | the address is built from the path without the trimmed suffix when present, leading slash kept, and from the whole path otherwise |
| CgiParseRequest.EndpointKeepsSlash | cgi/internal/parse_request.go:28-33 | a path with a leading slash gives the address of `/<repo>`, which differs from the address of `repo` |
| RequestParse.Parse | internal/request/parse.go:11-46 | "Invalid request" exactly for a last segment naming no service; a panic exactly for `refs` with no `service` parameter or as the whole path; otherwise the advertisement flag, the service from the query or path, and the matching content type |
| RequestParse.ParsePack | internal/request/parse.go:20-43 | `<repo>/<pack service>` parses to that service, its result content type and the repository's address |
| RequestParse.ParseAdvertisement | internal/request/parse.go:31-43 | `<repo>/<dir>/refs` with a `service` parameter parses to that service, its advertisement content type and the repository's address |
| PackOperation.Operate | internal/pack/receive.go:32-40 | the pack operation runs once; its error is returned; a nil response yields the given error; a response is written exactly when there is one, and then the encoder's error is returned |
| PackUpload.Upload | internal/pack/upload.go:16-39 | a decode error stops before the fetch; the fetch runs exactly for a decoded body and a capable session; its errors pass through; a nil response is not an error; the response is written exactly when the exchange succeeds |
| PackUpload.UploadMeetsContract | internal/pack/upload.go:16-39 | apart from a nil response, the fetch executor meets the design's executor contract |
| PackUpload.UploadNilResponseIsSilent | internal/pack/upload.go:33-36 | a nil fetch response reports success with nothing written, which breaks the executor contract |
| PackReceive.Receive | internal/pack/receive.go:15-41 | a decode error stops before the push; the push runs exactly for a decoded body and a capable session; a nil report is an error; the encoder's error is returned after a successful exchange |
| PackReceive.ReceiveMeetsContract | internal/pack/receive.go:15-41 | the push executor meets the design's executor contract on every input |
| CgiPackUpload.Upload | cgi/internal/pack/upload.go:15-44 | the executor opens its own session first; the decode result overwrites the open error; a failed session reads as one without the capability; a nil response is an error |
| CgiPackUpload.UploadMeetsContract | cgi/internal/pack/upload.go:15-44 | this fetch executor meets the design's executor contract on every input |
| InternalPack.UploadPack | internal/pack.go:16-39 | the earlier fetch executor is the later one, with its decode, capability and nil-response behaviour |
| InternalPack.ReceivePack | internal/pack.go:42-63 | the decode error is dropped; the push runs exactly for a capable session; a nil report is a silent success; the report is written exactly when there is one |
| InternalPack.ReceivePackMeetsContract | internal/pack.go:42-63 | with a decodable body and a non-nil report, the earlier push executor meets the executor contract |
| InternalPack.ReceivePackIgnoresDecodeError | internal/pack.go:48-49 | an undecodable body still reaches the push and succeeds, which breaks the executor contract |
| InfoRefsAdvertise.Advertise | internal/info_refs/advertise.go:17-42 | the advertisement meets the design's advertisement contract, and for an unknown service panics on the nil session having done nothing |
| RequestDo.Do | internal/request/do.go:16-55 | a rejected address ends with its error having done nothing; an unknown service panics on an advertisement and succeeds silently on a pack request |
| RequestDo.DoAdvertisement | internal/request/do.go:41-52 | an advertisement request is the shared advertisement and meets its contract |
| RequestDo.DoPush | internal/request/do.go:30-34 | a push request meets the pack contract |
| RequestDo.DoFetch | internal/request/do.go:35-39 | a fetch request meets the pack contract unless the fetch returns no response |
| RequestDo.DoFetchNilResponse | internal/request/do.go:35-42 | with a nil fetch response the request succeeds having written nothing, which breaks the pack contract |
| RequestRequest.Do | internal/request/request.go:61-109 | a rejected address ends with its error having done nothing; an advertisement meets the advertisement contract |
| RequestRequest.DoAgrees | internal/request/request.go:61-109 | the earlier executor and its rewrite in internal/request/do.go agree on every input |
| RequestRequest.DoAgreesOnAdvertisement | internal/request/request.go:96-107 | on an advertisement the two executors agree |
| CgiHandler.Headed | cgi/handler.go:31 | the handler first sets only `Cache-Control: no-cache` |
| CgiHandler.Switch | cgi/handler.go:46-64 | the advertisement case takes the service from the query and meets the advertisement contract; the fetch case meets the executor contract; any other service is "Invalid request" with nothing done |
| CgiHandler.ServeHTTP | cgi/handler.go:28-70 | the handler answers only 200, 400 or 406 and never reads the body or runs a pack operation |
| CgiHandler.Finish | cgi/handler.go:66-69 | a panic stays a panic; no error is 200; an error is 400 with its message, keeping every effect |
| CgiHandler.ServeIndexPanic | cgi/handler.go:31-33 | a request panics with an index fault exactly when its path is not an advertisement path, after only `Cache-Control` |
| CgiHandler.ServePackRequest | cgi/handler.go:33 | a request on `<repo>/git-upload-pack` or `<repo>/git-receive-pack` panics before its address is built |
| CgiHandler.ReceiveUnreachable | cgi/handler.go:53-57 | the response never depends on the receive operation |
| CgiHandler.Addressed | cgi/handler.go:33-39 | an advertisement path names the advertisement and is addressed by the path without `info/refs` |
| CgiHandler.Rejected | cgi/handler.go:40-44 | a rejected address is 406 with the transport's message and no session |
| CgiHandler.ServeRejected | cgi/handler.go:33-44 | an advertisement whose address is rejected gets exactly that 406 response |
| CgiHandler.ServeAccepted | cgi/handler.go:46-52 | an accepted advertisement sets the content type of the queried service and runs the shared advertisement |
| CgiHandler.ServeAdvertisement | cgi/handler.go:46-52 | a healthy advertisement for a known service is served as the design requires |
| CgiHandler.AdvertisementAddress | cgi/handler.go:34-39 | on `/<repo>/info/refs` the address is `<scheme>://<host>//<repo>/` |
| CgiHandler.ServeUnknownAdvertisement | cgi/handler.go:47-52 | an advertisement for an unknown service panics on the nil session, after its content type is set |
| CgiHandler.ServeOpenFailure | cgi/handler.go:52-69 | a session that fails to open is 400 with the open error: one session, no references asked for, nothing written |
| CgiHandler.InvalidService | cgi/handler.go:62-69 | a service no case names is 400 with "Invalid request: " and the service, nothing else done |
| SmartHttp.OpenService | internal/handlers/info_refs/handler.go:49-54 | one session of the service's kind is opened, non-nil exactly when opening succeeded and carrying the open error otherwise; an unknown service opens none and leaves it nil with no error |
| InfoRefsHandler.Typed | internal/handlers/info_refs/handler.go:46-47 | after the advertisement content type replaces the plain one, nothing else has happened and both headers hold |
| InfoRefsHandler.Advertise | internal/handlers/info_refs/handler.go:49-67 | a panic happens exactly for an unknown service or a failed open; a refs error is a silent 200; an encode error is 400; no body is read |
| InfoRefsHandler.Fetch | internal/handlers/info_refs/handler.go:56-67 | references are always asked for; a fetch error is a silent 200; an encode error is 400 with its message |
| InfoRefsHandler.ServeHTTP | internal/handlers/info_refs/handler.go:25-68 | the handler never reads the body or runs a pack operation, and answers only 200, 400 or 406 |
| InfoRefsHandler.ServeRejected | internal/handlers/info_refs/handler.go:39-44 | a rejected address is 406 with its message: no session, no references, nothing written |
| InfoRefsHandler.ServeNilSession | internal/handlers/info_refs/handler.go:49-56 | once the address is accepted, the handler panics on the nil session exactly when the service is unknown or its session failed to open |
| InfoRefsHandler.ServeSilentRefsFailure | internal/handlers/info_refs/handler.go:56-59 | references that cannot be fetched end the request with 200 and nothing written |
| InfoRefsHandler.ServeEncodeFailure | internal/handlers/info_refs/handler.go:61-67 | references that cannot be encoded are 400 with the encoder's message |
| InfoRefsHandler.OpenedAdvertisement | internal/handlers/info_refs/handler.go:49-63 | an opened session followed by fetched and encoded references meets the advertisement contract |
| InfoRefsHandler.AdvertiseServed | internal/handlers/info_refs/handler.go:46-63 | behind the advertisement content type, a healthy gateway serves the advertisement as the design requires |
| InfoRefsHandler.ServeAdvertisement | internal/handlers/info_refs/handler.go:25-63 | a healthy request for a known service is served as the design requires at the address of the path without `info/refs/` |
| InfoRefsHandler.RouteAddress | internal/handlers/info_refs/handler.go:31-37 | `<repo>/info/refs/` is addressed as `<repo>/`, trailing slash kept |
| InfoRefsHandler.UnroutedAddress | internal/handlers/info_refs/handler.go:31-37 | a path that does not end in `info/refs/` is addressed whole |
| ReceivePackHandler.Push | internal/handlers/receive_pack/handler.go:52-61 | a push without error is 200 with the typed headers and the push's trace; a push error is 406 with its message; every effect is kept |
| ReceivePackHandler.ServeHTTP | internal/handlers/receive_pack/handler.go:25-62 | the handler never panics, never asks for references, and answers only 200 or 406 |
| ReceivePackHandler.ServeSucceeds | internal/handlers/receive_pack/handler.go:38-61 | 200 exactly when the address, the session, the body, the capability, the report and its encoding all succeed |
| ReceivePackHandler.PushSucceeds | internal/handlers/receive_pack/handler.go:55-61 | the push step is 200 exactly when the exchange and the encoding succeed |
| ReceivePackHandler.ServeEffects | internal/handlers/receive_pack/handler.go:45-55 | an accepted address opens exactly one push session, and the body is read exactly when it opened |
| ReceivePackHandler.ServeRejected | internal/handlers/receive_pack/handler.go:38-43 | a rejected address is 406 with its message and nothing written |
| ReceivePackHandler.ServeOpenFailure | internal/handlers/receive_pack/handler.go:45-50 | a session that fails to open is 406 with its message: the open was asked for, no pack run, nothing written |
| ReceivePackHandler.TypedAfterSession | internal/handlers/receive_pack/handler.go:52-53 | the result content type set after the session open holds with `Cache-Control` and before any write |
| ReceivePackHandler.PushServed | internal/handlers/receive_pack/handler.go:52-61 | behind the result content type, a push through a healthy opened session is served as the design requires |
| ReceivePackHandler.ServePush | internal/handlers/receive_pack/handler.go:25-61 | a healthy gateway serves the push as the design requires at the address of the path without `git-receive-pack/` |

## Left out

- Logging: every logger call is left out, because it affects no response.
- Construction and registration: `New`, `Prefix` and `Address` wire the
  handlers into a router and hold no dispatch logic.
- The go-git transport, the request body and the pkt-line encoders:
  - they are the `Oracle`'s answers;
  - references, requests and reports are opaque values;
  - an encode is one `Encode` event, not its bytes.
- `http.ResponseWriter`:
  - headers set after a write are recorded, not suppressed;
  - a status passed to `http.Error` after the body was written is
    recorded, though net/http has already sent 200;
  - a response without `http.Error` is 200 (Go's implicit status);
  - the request context, concurrency and timing play no part.
- ServerHandler.ServeOpenFailure: reports status 0 as the handler passes it.
  `net/http` refuses codes below 100 with a panic of its own, and that
  behaviour of the library is not modelled.
- `InfoRefsPath`: the file that defines it is not part of this model, and
  its value is taken to be `info/refs`.
- cgi/internal/pack/receive.go is not part of this model.
  `CgiHandler.Switch` takes the run of its receive operation as a
  parameter. `CgiHandler.ReceiveUnreachable` shows that the response never
  depends on that run.

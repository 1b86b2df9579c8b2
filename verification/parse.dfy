/** internal/request.go: the first request parser, which only reads the
    service from the last path segment. */
module InternalRequest {
  import opened GoStrings

  const InfoRefsService := "refs"

  /** The last segment of the path, and whether it names an advertisement
      request. Go's `Split` always yields a field, so this never panics. */
  function Parse(requestPath: string): (r: (string, bool))
    ensures IsLastSegment(requestPath, r.0, '/')
    ensures r.1 <==> r.0 == InfoRefsService
  {
    var pathParts := Split(requestPath, '/');
    LastOfSplit(requestPath, '/');
    var service := pathParts[|pathParts| - 1];
    (service, service == InfoRefsService)
  }

  /** The parser is determined by the text after the last slash: any path
      whose last segment is `seg` parses to `seg`. */
  lemma ParseLastSegment(requestPath: string, seg: string)
    requires IsLastSegment(requestPath, seg, '/')
    ensures Parse(requestPath) == (seg, seg == InfoRefsService)
  {
    LastSegmentUnique(requestPath, seg, Parse(requestPath).0, '/');
  }
}

/** internal/parse_request.go: the parser that recognises the three
    endpoints by their trailing segments, and builds the endpoint address. */
module InternalParseRequest {
  import opened Go
  import opened GoStrings
  import opened Transport
  import opened SmartHttp
  import opened Paths

  const InvalidRequest := "Invalid request: "

  /** The service a request path names: `info/refs` when the last two of at
      least three segments are `info` and `refs`, otherwise the last segment
      when it is one of the two pack services. A path without a slash, and
      every other path, is an invalid request. */
  function ParsePath(requestPath: string): (r: Call<string>)
    ensures r == Ok(InfoRefsPath) <==> HasSuffix(requestPath, "/" + InfoRefsPath)
    ensures r == Ok(UploadPackPath) <==> HasSuffix(requestPath, "/" + UploadPackPath)
    ensures r == Ok(ReceivePackPath) <==> HasSuffix(requestPath, "/" + ReceivePackPath)
    ensures r.Ok? ==> r.value == InfoRefsPath || r.value == UploadPackPath || r.value == ReceivePackPath
    ensures r.Err? ==> r.msg == InvalidRequest + requestPath
  {
    var pathParts := Split(requestPath, '/');
    var n := |pathParts|;
    InfoRefsShape(requestPath);
    TrailingOne(requestPath, UploadPackPath, '/');
    TrailingOne(requestPath, ReceivePackPath, '/');
    if n < 2 then Err(InvalidRequest + requestPath)
    else if n >= 3 && Join(pathParts[n - 2..n], "/") == InfoRefsPath then Ok(InfoRefsPath)
    else if pathParts[n - 1] == UploadPackPath then Ok(UploadPackPath)
    else if pathParts[n - 1] == ReceivePackPath then Ok(ReceivePackPath)
    else Err(InvalidRequest + requestPath)
  }

  /** The advertisement test of the parser, as a suffix of the path; it
      implies that the last segment is `refs`. */
  lemma InfoRefsShape(requestPath: string)
    ensures var parts := Split(requestPath, '/');
      var n := |parts|;
      && ((n >= 3 && Join(parts[n - 2..n], "/") == InfoRefsPath) <==> HasSuffix(requestPath, "/" + InfoRefsPath))
      && (n >= 3 && Join(parts[n - 2..n], "/") == InfoRefsPath ==> parts[n - 1] == RefsPath)
  {
    var parts := Split(requestPath, '/');
    var n := |parts|;
    assert "/" + InfoRefsPath == ['/'] + InfoPath + ['/'] + RefsPath;
    assert InfoRefsPath == InfoPath + ['/'] + RefsPath;
    if n >= 2 {
      assert parts[n - 2..n] == parts[n - 2..];
      JoinLastTwo(parts, "/");
      if Join(parts[n - 2..n], "/") == InfoRefsPath {
        PairEq(parts[n - 2], parts[n - 1], InfoPath, RefsPath, '/');
      }
    }
    TrailingPair(requestPath, InfoPath, RefsPath, '/');
  }

  /** The address of the repository: the path without `trimString` and
      without its leading slash, on `requestHost`, `https` for a TLS request.
      A path that does not end in `trimString` loses only its leading slash,
      and a path that is `trimString` itself addresses the empty path. */
  function RetrieveTransportEndpoint(requestHost: string, requestPath: string, trimString: string,
                                     isSecure: bool, o: Oracle): (r: Call<Endpoint>)
    ensures HasPrefix(requestPath, "/") && HasSuffix(requestPath, trimString) && |trimString| < |requestPath| ==>
      r == NewEndpoint(o, RepoUrl(isSecure, requestHost, requestPath[1..|requestPath| - |trimString|]))
    ensures !HasPrefix(requestPath, "/") && HasSuffix(requestPath, trimString) ==>
      r == NewEndpoint(o, RepoUrl(isSecure, requestHost, requestPath[..|requestPath| - |trimString|]))
    ensures requestPath == trimString ==> r == NewEndpoint(o, RepoUrl(isSecure, requestHost, ""))
    ensures !HasSuffix(requestPath, trimString) ==>
      r == NewEndpoint(o, RepoUrl(isSecure, requestHost, TrimPrefix(requestPath, "/")))
  {
    var repoPath := TrimPrefix(TrimSuffix(requestPath, trimString), "/");
    NewEndpoint(o, RepoUrl(isSecure, requestHost, repoPath))
  }

  /** Building a request path from a repository path and the trimmed suffix,
      with or without a leading slash, gives back the repository's address. */
  lemma EndpointRoundTrip(requestHost: string, repo: string, trimString: string, isSecure: bool, o: Oracle)
    ensures RetrieveTransportEndpoint(requestHost, "/" + repo + trimString, trimString, isSecure, o)
            == NewEndpoint(o, RepoUrl(isSecure, requestHost, repo))
    ensures !HasPrefix(repo, "/") ==>
            RetrieveTransportEndpoint(requestHost, repo + trimString, trimString, isSecure, o)
            == NewEndpoint(o, RepoUrl(isSecure, requestHost, repo))
  {
    SlashedPath(repo, trimString);
    if repo == "" {
      assert repo + trimString == trimString;
      assert TrimSuffix(trimString, trimString) == "";
    } else if !HasPrefix(repo, "/") {
      BarePath(repo, trimString);
    }
  }

  /** `/<repo><trim>` starts with a slash, ends with `trim`, and holds
      `repo` between the two. */
  lemma SlashedPath(repo: string, trimString: string)
    ensures var path := "/" + repo + trimString;
      && HasPrefix(path, "/") && HasSuffix(path, trimString) && |trimString| < |path|
      && path[1..|path| - |trimString|] == repo
  {
    var path := "/" + repo + trimString;
    assert path[|path| - |trimString|..] == trimString;
    assert path[1..|path| - |trimString|] == repo;
  }

  /** `<repo><trim>` for a non-empty repository without a leading slash
      has none either, ends with `trim`, and holds `repo` before it. */
  lemma BarePath(repo: string, trimString: string)
    requires repo != "" && !HasPrefix(repo, "/")
    ensures var path := repo + trimString;
      && !HasPrefix(path, "/") && HasSuffix(path, trimString)
      && path[..|path| - |trimString|] == repo
  {
    var bare := repo + trimString;
    assert bare[|bare| - |trimString|..] == trimString;
    assert bare[..|bare| - |trimString|] == repo;
    assert bare[..1] == repo[..1];
  }

}

/** cgi/internal/parse_request.go: the CGI variant of the parser. */
module CgiParseRequest {
  import opened Go
  import opened GoStrings
  import opened Transport
  import opened SmartHttp
  import opened Paths

  /** The service a request path names. An advertisement path (the last two
      segments `info` and `refs`, with or without anything before them) is
      recognised; every other path indexes one past the last segment and
      panics, so the pack services are never returned. */
  function RetrieveService(requestPath: string): (r: Result<string>)
    ensures r.Return? <==> requestPath == InfoRefsPath || HasSuffix(requestPath, "/" + InfoRefsPath)
    ensures r.Return? ==> r == Return(InfoRefsPath, Nil)
    ensures r.Panic? ==> r.fault == IndexOutOfRange
  {
    InfoRefsTail(requestPath);
    ServiceOfParts(Split(requestPath, '/'))
  }

  /** The service the segments of a path name: the advertisement when the
      last two join to `info/refs`, otherwise the service the segment one
      past the last names. */
  function ServiceOfParts(pathParts: seq<string>): (r: Result<string>)
    ensures r.Return? <==> |pathParts| >= 2 && Join(pathParts[|pathParts| - 2..|pathParts|], "/") == InfoRefsPath
    ensures r.Return? ==> r == Return(InfoRefsPath, Nil)
    ensures r.Panic? ==> r.fault == IndexOutOfRange
  {
    var n := |pathParts|;
    if n >= 2 && Join(pathParts[n - 2..n], "/") == InfoRefsPath then Return(InfoRefsPath, Nil)
    else ServiceAt(pathParts, n)
  }

  /** The service the `i`-th segment names, or "" for any other segment;
      past the last segment, a panic. */
  function ServiceAt(pathParts: seq<string>, i: int): (r: Result<string>)
    ensures r.Panic? <==> !(0 <= i < |pathParts|)
    ensures r.Panic? ==> r.fault == IndexOutOfRange
    ensures r.Return? ==> r.err.Nil? && r.value in {UploadPackPath, ReceivePackPath, ""}
    ensures r.Return? && r.value != "" ==> r.value == pathParts[i]
  {
    match Index(pathParts, i)
    case Panic(fault) => Panic(fault)
    case Return(last, _) =>
      if last == UploadPackPath then Return(UploadPackPath, Nil)
      else if last == ReceivePackPath then Return(ReceivePackPath, Nil)
      else Return("", Nil)
  }

  /** The last two fields of a path join to `info/refs` exactly when the
      path is `info/refs` or ends in `/info/refs`. */
  lemma InfoRefsTail(requestPath: string)
    ensures var parts := Split(requestPath, '/');
      (|parts| >= 2 && Join(parts[|parts| - 2..|parts|], "/") == InfoRefsPath) <==>
      requestPath == InfoRefsPath || HasSuffix(requestPath, "/" + InfoRefsPath)
  {
    InfoRefsSpelled();
    TrailingPairOrOnly(requestPath, InfoPath, RefsPath, '/');
  }

  /** `info/refs` is the two fields `info` and `refs` joined. */
  lemma InfoRefsSpelled()
    ensures '/' !in InfoPath && '/' !in RefsPath
    ensures InfoRefsPath == InfoPath + ['/'] + RefsPath
    ensures "/" + InfoRefsPath == ['/'] + InfoPath + ['/'] + RefsPath
  {
  }

  /** The address of the repository: the path without `trimString`, leading
      slash kept, on `requestHost`, `https` for a TLS request. */
  function RetrieveTransportEndpoint(requestHost: string, requestPath: string, trimString: string,
                                     isSecure: bool, o: Oracle): (r: Call<Endpoint>)
    ensures HasSuffix(requestPath, trimString) ==>
      r == NewEndpoint(o, RepoUrl(isSecure, requestHost, requestPath[..|requestPath| - |trimString|]))
    ensures !HasSuffix(requestPath, trimString) ==>
      r == NewEndpoint(o, RepoUrl(isSecure, requestHost, requestPath))
  {
    var repoPath := TrimSuffix(requestPath, trimString);
    NewEndpoint(o, RepoUrl(isSecure, requestHost, repoPath))
  }

  /** A request path with its leading slash yields an address whose
      repository path starts with a slash (`<scheme>://<host>//<repo>`),
      not the address of `repo`. */
  lemma EndpointKeepsSlash(requestHost: string, repo: string, trimString: string, isSecure: bool, o: Oracle)
    ensures RetrieveTransportEndpoint(requestHost, "/" + repo + trimString, trimString, isSecure, o)
            == NewEndpoint(o, RepoUrl(isSecure, requestHost, "/" + repo))
    ensures RepoUrl(isSecure, requestHost, "/" + repo) != RepoUrl(isSecure, requestHost, repo)
  {
    var path := "/" + repo + trimString;
    assert path[|path| - |trimString|..] == trimString;
    assert path[..|path| - |trimString|] == "/" + repo;
    assert |RepoUrl(isSecure, requestHost, "/" + repo)| != |RepoUrl(isSecure, requestHost, repo)|;
  }
}

/** internal/request/parse.go: the parser of the request-package handlers.
    internal/request/request.go holds the same function, line for line. */
module RequestParse {
  import opened Go
  import opened GoStrings
  import opened UrlQuery
  import opened SmartHttp

  const InfoRefsService := "refs"
  const ReceiveService := "git-receive-pack"
  const UploadService := "git-upload-pack"
  const InvalidRequest := "Invalid request: "

  lemma NamesHaveNoSlash()
    ensures '/' !in ReceiveService && '/' !in UploadService && '/' !in InfoRefsService
  {
  }

  /** Go's named results `isInfoRefsRequest, service, contentType, endpoint`. */
  datatype Parsed = Parsed(isInfoRefs: bool, service: string, contentType: string, endpoint: string)

  /** The query names a service. */
  predicate HasService(query: Query)
  {
    "service" in query && |query["service"]| > 0
  }

  /** Parse the path and query of a request. The last segment must be a pack
      service or `refs`; for `refs` the service comes from the `service`
      query parameter and two segments are dropped from the repository path,
      otherwise one. A missing parameter and a bare `refs` path panic. */
  function Parse(isSecure: bool, requestHost: string, requestPath: string, query: Query): (r: Result<Parsed>)
    ensures r.Return? && r.err.Error? <==>
      LastSegment(requestPath, '/') !in {ReceiveService, UploadService, InfoRefsService}
    ensures r.Return? && r.err.Error? ==>
      r.value == Parsed(false, LastSegment(requestPath, '/'), "", "") && r.err.msg == InvalidRequest + requestPath
    ensures r.Panic? <==>
      LastSegment(requestPath, '/') == InfoRefsService && (!HasService(query) || requestPath == InfoRefsService)
    ensures r.Panic? ==> r.fault == (if HasService(query) then SliceOutOfRange else IndexOutOfRange)
    ensures r.Return? && r.err.Nil? ==>
      && (r.value.isInfoRefs <==> LastSegment(requestPath, '/') == InfoRefsService)
      && r.value.contentType == ContentType(r.value.service, r.value.isInfoRefs)
      && (r.value.isInfoRefs ==> HasService(query) && r.value.service == query["service"][0])
      && (!r.value.isInfoRefs ==> r.value.service == LastSegment(requestPath, '/'))
  {
    var pathParts := Split(requestPath, '/');
    var n := |pathParts|;
    var service := pathParts[n - 1];
    var isInfoRefsRequest := service == InfoRefsService;
    assert n == 1 ==> requestPath == pathParts[0];
    if service != ReceiveService && service != UploadService && !isInfoRefsRequest then
      Return(Parsed(false, service, "", ""), Error(InvalidRequest + requestPath))
    else
      var contentTypeSuffix := if isInfoRefsRequest then "advertisement" else "result";
      var trimParts := if isInfoRefsRequest then 2 else 1;
      var named := if isInfoRefsRequest then First(query, "service") else Return(service, Nil);
      match named
      case Panic(fault) => Panic(fault)
      case Return(service, _) =>
        match Slice(pathParts, 0, n - trimParts)
        case Panic(fault) => Panic(fault)
        case Return(repoParts, _) =>
          var repoPath := Join(repoParts, "/");
          var contentType := "application/x-" + service + "-" + contentTypeSuffix;
          assert contentType == ApplicationPrefix + service + (if isInfoRefsRequest then AdvertisementSuffix else ResultSuffix);
          Return(Parsed(isInfoRefsRequest, service, contentType, RepoUrl(isSecure, requestHost, repoPath)), Nil)
  }

  /** A pack request for the repository at `repo` parses back to that
      repository's address, the service and its result content type. */
  lemma ParsePack(isSecure: bool, requestHost: string, repo: string, service: string, query: Query)
    requires service == ReceiveService || service == UploadService
    ensures Parse(isSecure, requestHost, repo + "/" + service, query)
            == Return(Parsed(false, service, ContentType(service, false), RepoUrl(isSecure, requestHost, repo)), Nil)
  {
    var path := repo + "/" + service;
    PackPathFields(repo, service);
    var parts := Split(path, '/');
    assert LastSegment(path, '/') == service;
    assert parts[0..|parts| - 1] == Split(repo, '/');
    var r := Parse(isSecure, requestHost, path, query);
    assert r.Return? && r.err.Nil?;
    assert r.value.endpoint == RepoUrl(isSecure, requestHost, repo);
  }

  /** The fields of a pack request path. */
  lemma PackPathFields(repo: string, service: string)
    requires service == ReceiveService || service == UploadService
    ensures Split(repo + "/" + service, '/') == Split(repo, '/') + [service]
  {
    assert repo + "/" + service == repo + ['/'] + service;
    SplitAround(repo, service, '/');
    NamesHaveNoSlash();
    SplitSingle(service, '/');
  }

  /** An advertisement request `<repo>/<dir>/refs` parses back to the
      repository's address, the queried service and its advertisement
      content type, whatever `dir` is. */
  lemma ParseAdvertisement(isSecure: bool, requestHost: string, repo: string, dir: string, query: Query)
    requires '/' !in dir && HasService(query)
    ensures Parse(isSecure, requestHost, repo + "/" + dir + "/" + InfoRefsService, query)
            == Return(Parsed(true, query["service"][0], ContentType(query["service"][0], true),
                             RepoUrl(isSecure, requestHost, repo)), Nil)
  {
    var path := repo + "/" + dir + "/" + InfoRefsService;
    AdvertisementPathFields(repo, dir);
    var parts := Split(path, '/');
    assert LastSegment(path, '/') == InfoRefsService;
    assert parts[0..|parts| - 2] == Split(repo, '/');
    assert path != InfoRefsService by {
      assert |path| > |InfoRefsService|;
    }
    var r := Parse(isSecure, requestHost, path, query);
    assert r.Return? && r.err.Nil?;
    assert r.value.endpoint == RepoUrl(isSecure, requestHost, repo);
  }

  /** The fields of an advertisement request path. */
  lemma AdvertisementPathFields(repo: string, dir: string)
    requires '/' !in dir
    ensures Split(repo + "/" + dir + "/" + InfoRefsService, '/') == Split(repo, '/') + [dir, InfoRefsService]
  {
    NamesHaveNoSlash();
    assert repo + "/" + dir + "/" + InfoRefsService == repo + ['/'] + (dir + ['/'] + InfoRefsService);
    SplitAround(repo, dir + ['/'] + InfoRefsService, '/');
    SplitOfPair(dir, InfoRefsService, '/');
  }
}

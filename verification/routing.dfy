/** The path parsing that handler.go and server/handler.go share: the last
    field of the path names the service, and the fields before it (all but
    two for an advertisement) name the repository. */
module Routing {
  import opened Go
  import opened GoStrings
  import opened UrlQuery
  import opened Paths

  const InfoRefsService := "refs"
  const ReceiveService := "git-receive-pack"
  const UploadService := "git-upload-pack"

  /** What a handler reads from the path and the query before it touches
      the transport: an invalid last field, a repository slice out of range,
      or the service and the repository path. */
  datatype Route =
    | Invalid
    | Unsliced(fault: Fault)
    | Routed(isInfoRefsRequest: bool, service: string, repo: string)

  /** Split the path on '/'. The last field must name one of the three
      services; an advertisement takes its service from the query, where a
      missing parameter reads as "", and drops two fields from the
      repository path, a pack request one. */
  function RouteOf(requestPath: string, query: Query): (r: Route)
    ensures r.Unsliced? ==> r.fault == SliceOutOfRange
    ensures r.Routed? && !r.isInfoRefsRequest ==> r.service == ReceiveService || r.service == UploadService
  {
    var pathParts := Split(requestPath, '/');
    var n := |pathParts|;
    var service := pathParts[n - 1];
    var isInfoRefsRequest := service == InfoRefsService;
    if service != ReceiveService && service != UploadService && !isInfoRefsRequest then Invalid
    else
      var trimParts := if isInfoRefsRequest then 2 else 1;
      var service := if isInfoRefsRequest then Get(query, "service") else service;
      match Slice(pathParts, 0, n - trimParts)
      case Panic(fault) => Unsliced(fault)
      case Return(repoParts, _) => Routed(isInfoRefsRequest, service, Join(repoParts, "/"))
  }

  /** The path of a request for `name` on repository `repo`: a pack
      service directly after the repository, the advertisement under
      `info/refs`. */
  function RoutedPath(repo: string, name: string): string
  {
    if name == InfoRefsService then repo + "/" + InfoRefsPath else repo + "/" + name
  }

  /** The service a routed request asks for: the `service` parameter of an
      advertisement, otherwise the path's own last field. */
  function Requested(query: Query, name: string): string
  {
    if name == InfoRefsService then Get(query, "service") else name
  }

  /** A path `<head>/<name>` splits into the fields of `head` followed by
      `name`, whose removal leaves `head`'s fields. */
  lemma RouteParts(path: string, head: string, name: string)
    requires '/' !in name
    requires path == head + "/" + name
    ensures var parts := Split(path, '/');
      && parts == Split(head, '/') + [name]
      && Slice(parts, 0, |parts| - 1) == Return(Split(head, '/'), Nil)
      && Join(Split(head, '/'), "/") == head
  {
    assert path == head + ['/'] + name;
    SplitLast(head, name, '/');
    var parts := Split(path, '/');
    assert parts[0..|parts| - 1] == Split(head, '/');
  }

  /** An advertisement path splits into the repository's fields, "info"
      and "refs". */
  lemma InfoRouteParts(path: string, repo: string)
    requires path == repo + "/" + InfoRefsPath
    ensures var parts := Split(path, '/');
      && |parts| >= 2 && parts[|parts| - 1] == InfoRefsService
      && Slice(parts, 0, |parts| - 2) == Return(Split(repo, '/'), Nil)
      && Join(Split(repo, '/'), "/") == repo
  {
    var head := repo + "/" + InfoPath;
    assert path == head + "/" + InfoRefsService;
    RouteParts(path, head, InfoRefsService);
    InfoHead(repo, head);
    var parts := Split(path, '/');
    assert parts == Split(repo, '/') + [InfoPath, InfoRefsService];
    assert parts[0..|parts| - 2] == Split(repo, '/');
  }

  /** `<repo>/info` splits into the repository's fields and "info". */
  lemma InfoHead(repo: string, head: string)
    requires head == repo + "/" + InfoPath
    ensures Split(head, '/') == Split(repo, '/') + [InfoPath]
  {
    assert head == repo + ['/'] + InfoPath;
    SplitLast(repo, InfoPath, '/');
  }

  /** A routed path names its repository and service: the repository's
      fields joined again give the repository back. */
  lemma RouteOfRouted(repo: string, name: string, query: Query)
    requires name == InfoRefsService || name == ReceiveService || name == UploadService
    ensures RouteOf(RoutedPath(repo, name), query) == Routed(name == InfoRefsService, Requested(query, name), repo)
  {
    if name == InfoRefsService {
      InfoRouteParts(RoutedPath(repo, name), repo);
    } else {
      assert '/' !in name;
      RouteParts(RoutedPath(repo, name), repo, name);
    }
  }

  /** A path is invalid exactly when its last field names none of the three
      services. */
  lemma RouteInvalid(requestPath: string, query: Query)
    ensures var name := LastSegment(requestPath, '/');
      RouteOf(requestPath, query).Invalid? <==> name != InfoRefsService && name != ReceiveService && name != UploadService
  {
  }

  /** The repository slice is out of range exactly for the bare path
      `refs`, which has no field before it to drop. */
  lemma RouteUnsliced(requestPath: string, query: Query)
    ensures RouteOf(requestPath, query).Unsliced? <==> requestPath == InfoRefsService
  {
    if requestPath == InfoRefsService {
      SplitSingle(requestPath, '/');
      assert Split(requestPath, '/') == [InfoRefsService];
    }
  }
}

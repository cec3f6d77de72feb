/** The per-request service function: classify the path by the API prefix,
    then answer either from the static root or from the API handler. The
    network, the disk and the database enter only as the outcomes they produce. */
module Server {
  import opened Results
  import opened Strings
  import opened Http
  import opened Mime
  import opened StaticFiles
  import opened Database
  import opened Api

  const ApiPrefix := "/api"

  /** The outcome of opening and reading each file path, as the disk would report it. */
  type FileSystem = string -> FileResult

  /** A call the handler makes outside itself: on the file system or on the database. */
  datatype Effect = FileEffect(fileCall: FileCall) | DbEffect(dbCall: Step)

  /** The response to one request, and every outside call made to produce it, in order. */
  datatype Exchange = Exchange(response: Response, effects: seq<Effect>)

  /** Where a request path is routed. */
  datatype Route = ToApi(apiPath: string) | ToFile(filePath: string)

  function RouteOf(path: string): (r: Route)
    ensures r.ToApi? <==> StartsWith(path, ApiPrefix)
    ensures r.ToApi? ==> r.apiPath == path
    ensures r.ToFile? ==> r.filePath == ResolvePath(path)
  {
    if StartsWith(path, ApiPrefix) then ToApi(path) else ToFile(ResolvePath(path))
  }

  function DbEffects(calls: seq<Step>): seq<Effect> {
    seq(|calls|, i requires 0 <= i < |calls| => DbEffect(calls[i]))
  }

  function FileEffects(calls: seq<FileCall>): seq<Effect> {
    seq(|calls|, i requires 0 <= i < |calls| => FileEffect(calls[i]))
  }

  /** `serve_static_files`: the response to a request for `path`. */
  function Serve(path: string, fs: FileSystem, db: Backend): (x: Exchange)
    // API paths are answered by the API handler alone, with only database calls
    ensures StartsWith(path, ApiPrefix) ==>
              x.response == ApiHandler(path, db).response &&
              x.effects == DbEffects(ApiHandler(path, db).calls)
    // other paths open exactly their resolved file once, and read it only if it opened
    ensures !StartsWith(path, ApiPrefix) ==>
              x.response == FileResponse(ResolvePath(path), fs(ResolvePath(path))) &&
              x.effects == FileEffects(ServeFile(ResolvePath(path), fs(ResolvePath(path))).calls)
  {
    match RouteOf(path)
    case ToApi(p) =>
      var a := ApiHandler(p, db);
      Exchange(a.response, DbEffects(a.calls))
    case ToFile(fp) =>
      var s := ServeFile(fp, fs(fp));
      Exchange(s.response, FileEffects(s.calls))
  }

  /** A request under the API prefix makes no file-system call, and its response
      does not depend on the disk. */
  lemma ApiRequestsNeverTouchFiles(path: string, fs1: FileSystem, fs2: FileSystem, db: Backend)
    requires StartsWith(path, ApiPrefix)
    ensures forall e <- Serve(path, fs1, db).effects :: e.DbEffect?
    ensures Serve(path, fs1, db) == Serve(path, fs2, db)
  {
  }

  /** Any other request makes no database call, its response does not depend on
      the database, and it opens its resolved file exactly once. */
  lemma StaticRequestsNeverTouchDatabase(path: string, fs: FileSystem, db1: Backend, db2: Backend)
    requires !StartsWith(path, ApiPrefix)
    ensures forall e <- Serve(path, fs, db1).effects :: e.FileEffect? && e.fileCall.path == ResolvePath(path)
    ensures Serve(path, fs, db1).effects[0] == FileEffect(Open(ResolvePath(path)))
    ensures forall i :: 1 <= i < |Serve(path, fs, db1).effects| ==> Serve(path, fs, db1).effects[i] != FileEffect(Open(ResolvePath(path)))
    ensures Serve(path, fs, db1) == Serve(path, fs, db2)
  {
  }

  /** A static request whose file reads in full is answered 200 with exactly the
      file's bytes, typed by the request path's extension. */
  lemma StaticContentsServed(path: string, fs: FileSystem, db: Backend)
    requires !StartsWith(path, ApiPrefix) && path != "/"
    requires fs(ResolvePath(path)).Contents?
    ensures Serve(path, fs, db).response ==
              Response(StatusOk, Some(GetMimeType(path)), Octets(fs(ResolvePath(path)).bytes))
  {
    ContentTypeFollowsRequestPath(path);
  }

  /** The root path serves the default document as HTML. */
  lemma RootServedAsHtml(fs: FileSystem, db: Backend)
    requires fs(DefaultDocument).Contents?
    ensures Serve("/", fs, db).response == Response(StatusOk, Some(HtmlType), Octets(fs(DefaultDocument).bytes))
  {
  }

  /** A file that cannot be opened or read still yields a response: status 200,
      no Content-Type, and a body that says which of the two went wrong. */
  lemma FileFailuresAnswered(path: string, fs: FileSystem, db: Backend)
    requires !StartsWith(path, ApiPrefix) && !fs(ResolvePath(path)).Contents?
    ensures Serve(path, fs, db).response.status == StatusOk
    ensures Serve(path, fs, db).response.contentType == None
    ensures Serve(path, fs, db).response.body == Text(if fs(ResolvePath(path)).OpenErr? then OpenFailedBody else ReadFailedBody)
  {
  }

  /** Paths that share the API prefix but are not the data path are not found,
      even when a file of that name exists under the static root. */
  lemma ApiPrefixShadowsFiles(path: string, fs: FileSystem, db: Backend)
    requires StartsWith(path, ApiPrefix) && path != DataPath
    ensures Serve(path, fs, db) == Exchange(Response(StatusNotFound, None, Text(NotFoundBody)), [])
  {
  }

  lemma NearMissApiPathsNotFound(fs: FileSystem, db: Backend)
    ensures Serve("/api", fs, db).response.status == StatusNotFound
    ensures Serve("/api/", fs, db).response.status == StatusNotFound
    ensures Serve("/apix", fs, db).response.status == StatusNotFound
  {
  }

  /** An unreachable database yields a 500 JSON error after the connect attempt alone. */
  lemma UnreachableDatabase(fs: FileSystem, db: Backend)
    requires db.connect.ConnectErr?
    ensures Serve(DataPath, fs, db) ==
              Exchange(Response(StatusInternalError, Some(JsonType), Text("{\"error\": \"Failed to connect to database\"}")),
                       [DbEffect(Connect(Endpoint))])
  {
    ConnectFailedBody();
    DataPathIsApi();
    var a := ApiHandler(DataPath, db);
    assert Pipeline[..1] == [Connect(Endpoint)];
    assert a == ApiReply(Response(StatusInternalError, Some(JsonType), Text(ErrorBody(ConnectFailed))), [Connect(Endpoint)]);
    assert DbEffects(a.calls) == [DbEffect(Connect(Endpoint))];
  }

  lemma DataPathIsApi()
    ensures StartsWith(DataPath, ApiPrefix)
  {
  }

  /** When every call succeeds the users are returned in the order the select produced them. */
  lemma UsersReturnedInOrder(fs: FileSystem, db: Backend, users: seq<User>)
    requires db == Backend(ConnectOk, SigninOk, ScopeOk, Rows(users))
    ensures Serve(DataPath, fs, db).response == Response(StatusOk, Some(JsonType), UsersJson(users))
    ensures Serve(DataPath, fs, db).effects == DbEffects(Pipeline)
  {
  }
}

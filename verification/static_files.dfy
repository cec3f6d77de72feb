/** Static assets: mapping a request path to a file under the static root, and
    turning the outcome of opening and reading that file into a response. */
module StaticFiles {
  import opened Results
  import opened Strings
  import opened Http
  import opened Mime

  const StaticRoot := "static"
  /** The document served for the root path. */
  const DefaultDocument := "static/index.html"

  const OpenFailedBody := "Error one!"
  const ReadFailedBody := "Error two!"

  /** What opening and then reading a file to its end yields: the open fails,
      the open succeeds but the read fails, or the whole contents arrive. */
  datatype FileResult = OpenErr | ReadErr | Contents(bytes: seq<byte>)

  /** A file-system call the handler makes. */
  datatype FileCall = Open(path: string) | ReadToEnd(path: string)

  datatype StaticReply = StaticReply(response: Response, calls: seq<FileCall>)

  /** The file path a non-API request path is served from. The request path is
      appended verbatim: nothing removes `..` segments. */
  function ResolvePath(path: string): (fp: string)
    ensures StartsWith(fp, StaticRoot)
    ensures path == "/" ==> fp == DefaultDocument
    ensures path != "/" ==> fp[|StaticRoot|..] == path && EndsWith(fp, path)
  {
    if path == "/" then DefaultDocument
    else
      StartsWithConcat(StaticRoot, path);
      EndsWithConcat(StaticRoot, path);
      StaticRoot + path
  }

  /** The request path a resolved file path came from, read back off it. */
  function RequestPathOf(fp: string): (path: string)
    requires StartsWith(fp, StaticRoot)
    ensures StaticRoot + path == fp
  {
    fp[|StaticRoot|..]
  }

  /** Reading the request path back off a resolved path recovers it, except that
      the root path comes back as the default document's own request path. */
  lemma ResolveRoundTrip(path: string)
    ensures RequestPathOf(ResolvePath(path)) == if path == "/" then "/index.html" else path
  {
  }

  /** Two request paths share a file exactly when they are `/` and `/index.html`. */
  lemma ResolveCollisions(p: string, q: string)
    ensures ResolvePath(p) == ResolvePath(q) <==> p == q || {p, q} == {"/", "/index.html"}
  {
  }

  /** The response for a resolved file path, given what opening and reading it yielded. */
  function FileResponse(fp: string, file: FileResult): (r: Response)
    ensures r.status == StatusOk
    ensures r.contentType.Some? <==> file.Contents?
    ensures file.Contents? ==> r.body == Octets(file.bytes) && r.contentType == Some(GetMimeType(fp))
    ensures file.OpenErr? ==> r.body == Text(OpenFailedBody)
    ensures file.ReadErr? ==> r.body == Text(ReadFailedBody)
  {
    match file
    case OpenErr => Response(StatusOk, None, Text(OpenFailedBody))
    case ReadErr => Response(StatusOk, None, Text(ReadFailedBody))
    case Contents(bytes) => Response(StatusOk, Some(GetMimeType(fp)), Octets(bytes))
  }

  /** The response tells the three file outcomes apart, and the contents exactly. */
  lemma FileResponseInjective(fp: string, a: FileResult, b: FileResult)
    ensures FileResponse(fp, a) == FileResponse(fp, b) <==> a == b
  {
  }

  /** Serving a resolved file path: open it, and read it to the end only if it opened. */
  function ServeFile(fp: string, file: FileResult): (s: StaticReply)
    ensures s.response == FileResponse(fp, file)
    ensures |s.calls| >= 1 && s.calls[0] == Open(fp)
    ensures s.calls == [Open(fp)] <==> file.OpenErr?
    ensures file.OpenErr? ==> s.calls == [Open(fp)]
    ensures !file.OpenErr? ==> s.calls == [Open(fp), ReadToEnd(fp)]
    ensures forall c <- s.calls :: c.path == fp
  {
    StaticReply(FileResponse(fp, file), if file.OpenErr? then [Open(fp)] else [Open(fp), ReadToEnd(fp)])
  }

  /** A suffix that starts with a dot matches a resolved path exactly when it
      matches the request path, since the static root contains no dot. */
  lemma DottedSuffixOfResolved(path: string, x: string)
    requires |x| > 0 && x[0] == '.'
    ensures EndsWith(StaticRoot + path, x) <==> EndsWith(path, x)
  {
  }

  /** The Content-Type of a served file follows the extension of the request path itself. */
  lemma ContentTypeFollowsRequestPath(path: string)
    requires path != "/"
    ensures GetMimeType(ResolvePath(path)) == GetMimeType(path)
  {
    DottedSuffixOfResolved(path, ".wasm");
    DottedSuffixOfResolved(path, ".html");
    DottedSuffixOfResolved(path, ".js");
    DottedSuffixOfResolved(path, ".css");
  }

  /** The root path is served with the default document's type, HTML. */
  lemma RootIsHtml()
    ensures GetMimeType(ResolvePath("/")) == HtmlType
  {
  }
}

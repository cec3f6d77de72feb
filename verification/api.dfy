/** The API handler: `/api/data` runs the database gateway and reports its
    outcome as JSON; every other path under the API prefix is not found. */
module Api {
  import opened Results
  import opened Strings
  import opened Http
  import opened Database

  const DataPath := "/api/data"
  const NotFoundBody := "404 - Not Found"

  /** The fixed text reported for each failure kind. */
  function ErrorMessage(e: DbError): string {
    match e
    case ConnectFailed => "Failed to connect to database"
    case AuthFailed => "Failed to sign in to database"
    case AuthTimeout => "Database login timed out"
    case ScopeSelectFailed => "Failed to select namespace and database"
    case QueryFailed => "Failed to fetch data from database"
  }

  const ErrorPrefix := "{\"error\": \""
  const ErrorSuffix := "\"}"

  /** The JSON object a failure is reported with. */
  function ErrorBody(e: DbError): string {
    ErrorPrefix + ErrorMessage(e) + ErrorSuffix
  }

  /** An error body is the kind's message inside the fixed `error` wrapper. */
  lemma ErrorBodyShape(e: DbError)
    ensures |ErrorPrefix| + |ErrorSuffix| <= |ErrorBody(e)|
    ensures StartsWith(ErrorBody(e), ErrorPrefix) && EndsWith(ErrorBody(e), ErrorSuffix)
    ensures ErrorBody(e)[|ErrorPrefix|..|ErrorBody(e)| - |ErrorSuffix|] == ErrorMessage(e)
  {
    StartsWithConcat(ErrorPrefix, ErrorMessage(e) + ErrorSuffix);
    assert ErrorBody(e) == ErrorPrefix + (ErrorMessage(e) + ErrorSuffix);
    EndsWithConcat(ErrorPrefix + ErrorMessage(e), ErrorSuffix);
  }

  /** The failure kind whose fixed message is `msg`, if any. */
  function MessageKind(msg: string): (e: Option<DbError>)
    ensures e.Some? ==> ErrorMessage(e.value) == msg
  {
    if msg == ErrorMessage(ConnectFailed) then Some(ConnectFailed)
    else if msg == ErrorMessage(AuthFailed) then Some(AuthFailed)
    else if msg == ErrorMessage(AuthTimeout) then Some(AuthTimeout)
    else if msg == ErrorMessage(ScopeSelectFailed) then Some(ScopeSelectFailed)
    else if msg == ErrorMessage(QueryFailed) then Some(QueryFailed)
    else None
  }

  /** Reads the failure kind back off an error body: what a client can tell from the body alone. */
  function ErrorKindOf(body: string): (e: Option<DbError>)
    ensures e.Some? ==> body == ErrorBody(e.value)
  {
    if |ErrorPrefix| + |ErrorSuffix| <= |body| && StartsWith(body, ErrorPrefix) && EndsWith(body, ErrorSuffix) then
      var msg := body[|ErrorPrefix|..|body| - |ErrorSuffix|];
      assert body == body[..|ErrorPrefix|] + msg + body[|body| - |ErrorSuffix|..];
      MessageKind(msg)
    else None
  }

  /** Every failure kind's body reads back as that kind, so the five bodies are
      pairwise distinct; in particular a rejected and a timed-out sign-in differ. */
  lemma ErrorBodyRoundTrip(e: DbError)
    ensures ErrorKindOf(ErrorBody(e)) == Some(e)
  {
  }

  /** The five 500 bodies: each kind's message, written out, inside the
      `{"error": "` … `"}` wrapper. */
  lemma FixedErrorBodies()
    ensures ErrorPrefix == "{\"error\": \"" && ErrorSuffix == "\"}"
    ensures ErrorBody(ConnectFailed) == ErrorPrefix + "Failed to connect to database" + ErrorSuffix
    ensures ErrorBody(AuthFailed) == ErrorPrefix + "Failed to sign in to database" + ErrorSuffix
    ensures ErrorBody(AuthTimeout) == ErrorPrefix + "Database login timed out" + ErrorSuffix
    ensures ErrorBody(ScopeSelectFailed) == ErrorPrefix + "Failed to select namespace and database" + ErrorSuffix
    ensures ErrorBody(QueryFailed) == ErrorPrefix + "Failed to fetch data from database" + ErrorSuffix
  {
  }

  /** The connect failure body as one literal. */
  lemma ConnectFailedBody()
    ensures ErrorBody(ConnectFailed) == "{\"error\": \"Failed to connect to database\"}"
  {
  }

  lemma ErrorBodiesDistinct(a: DbError, b: DbError)
    ensures ErrorBody(a) == ErrorBody(b) <==> a == b
  {
    ErrorBodyRoundTrip(a);
    ErrorBodyRoundTrip(b);
  }

  /** The handler's response, and the database calls it made. */
  datatype ApiReply = ApiReply(response: Response, calls: seq<Step>)

  /** `api_handler`: only the exact data path reaches the database. */
  function ApiHandler(path: string, db: Backend): (a: ApiReply)
    // any other path is not found, without touching the database
    ensures path != DataPath ==> a.calls == [] && a.response == Response(StatusNotFound, None, Text(NotFoundBody))
    // the data path makes exactly the gateway's calls and always answers JSON
    ensures path == DataPath ==> a.calls == FetchUsers(db).trace && a.response.contentType == Some(JsonType)
    // 200 exactly when the fetch succeeded, 500 exactly when it failed
    ensures a.response.status == StatusOk <==> path == DataPath && FetchUsers(db).result.Success?
    ensures a.response.status == StatusInternalError <==> path == DataPath && FetchUsers(db).result.Failure?
    // on success the body is the users as the select returned them
    ensures a.response.status == StatusOk ==> a.response.body == UsersJson(db.select.users)
    // on failure the body names the failure kind
    ensures a.response.status == StatusInternalError ==>
              a.response.body.Text? && ErrorKindOf(a.response.body.text) == Some(FetchUsers(db).result.error)
  {
    if path == DataPath then
      var f := FetchUsers(db);
      match f.result
      case Success(users) => ApiReply(Response(StatusOk, Some(JsonType), UsersJson(users)), f.trace)
      case Failure(e) =>
        ErrorBodyRoundTrip(e);
        ApiReply(Response(StatusInternalError, Some(JsonType), Text(ErrorBody(e))), f.trace)
    else ApiReply(Response(StatusNotFound, None, Text(NotFoundBody)), [])
  }
}

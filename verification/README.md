# Request handling of the wasm-frp backend server, in Dafny

This project models how the backend server in `backend/src/main.rs` answers one
HTTP request. The network, the disk and the database appear only as the outcomes
they produce. Every request path goes one of two ways:

- **API paths** are those starting with `/api`. Only the exact path `/api/data`
  reaches the database gateway. The gateway opens a fresh connection to
  `http://127.0.0.1:8008/rpc` and signs in as `root`/`root` under a 5-second
  timeout. It then selects namespace `wasmfrp` and database `sdb`, and selects
  every record of table `user`. The first failing call ends the request with a
  500 JSON error body that names the failure. Success gives 200 and the users
  as JSON. Any other API path gets 404 `404 - Not Found`.
- **Static paths** are all other paths. They are resolved under `static`, and
  `/` becomes `static/index.html`. The file is opened and then read to its end.
  An open failure is answered with `Error one!` and a read failure with
  `Error two!`, both with status 200 and no Content-Type. A file read in full is
  answered 200 with its exact bytes. The Content-Type comes from the resolved
  path's extension.

Modules, leaf first:

- `Results`: `Option` and `Result`.
- `Strings`: `starts_with` and `ends_with`.
- `Http`: bytes, the `User` record, bodies and responses.
- `Mime`: `get_mime_type`. A first-match lookup in a suffix table is the
  reference definition it is proved equal to.
- `StaticFiles`: path resolution, the file outcome (`OpenErr | ReadErr |
  Contents`), and the file response.
- `Database`: the gateway's straight-line call sequence (`FetchUsers`). A
  per-request session state machine (`Drive`) is proved to make the same calls
  and reach the same result.
- `Api`: `api_handler`, with the fixed error bodies and a reader that recovers
  the failure kind from an error body.
- `Server`: `serve_static_files`. `Serve` returns the response and the ordered
  list of every file and database call made to produce it.

That list of calls is an ordinary field of the returned value, so step order,
short-circuiting and "never touches the disk / the database" are stated as
properties of that value.

Two behaviours are modelled exactly as the code writes them:

- Static-file failures are answered with status 200.
- Request paths are appended to `static` with no `..` sanitisation.
  `ResolveRoundTrip` and `ResolveCollisions` state what that concatenation
  gives.

A sign-in rejection and a sign-in timeout get different error bodies: `Failed to
sign in to database` (line 129) and `Database login timed out` (line 137).

## Model

| member | source | states |
|---|---|---|
| Mime.GetMimeType | backend/src/main.rs:87-99 | The content type is always one of the five table values: wasm, html, javascript, css, or plain text. |
| Mime.FirstMatch | backend/src/main.rs:87-99 | Table lookup used as the reference definition: the first matching suffix's type wins, and the fallback is returned when nothing matches. |
| Mime.SuffixesExclusive | backend/src/main.rs:88-95 | No path ends with two different suffixes of the table, so the order the chain tests them in cannot change the answer. |
| Mime.GetMimeTypeIsTableLookup | backend/src/main.rs:87-99 | The if-chain equals the first-match lookup in the suffix table with `text/plain` as fallback. |
| Mime.GetMimeTypeIff | backend/src/main.rs:87-99 | Each of the four types is returned if and only if the path ends with its suffix. `text/plain` is returned if and only if none matches. |
| StaticFiles.ResolvePath | backend/src/main.rs:57-60 | The resolved path always starts with `static`. `/` maps to `static/index.html`. Any other path is kept verbatim after the root and is a suffix of the result. |
| StaticFiles.RequestPathOf | backend/src/main.rs:59 | Reads the request path back off a resolved path: the root followed by the recovered path is the resolved path. |
| StaticFiles.ResolveRoundTrip | backend/src/main.rs:57-60 | Resolving and reading back returns the request path. The one exception is `/`, which comes back as `/index.html`. |
| StaticFiles.ResolveCollisions | backend/src/main.rs:57-60 | Two different request paths map to the same file if and only if they are `/` and `/index.html`. |
| StaticFiles.FileResponse | backend/src/main.rs:64-84 | Status is always 200. A Content-Type is set if and only if the file was read in full; it is then the resolved path's type and the body is the exact contents. An open failure gives `Error one!` and a read failure gives `Error two!`. |
| StaticFiles.FileResponseInjective | backend/src/main.rs:64-84 | Two file outcomes give equal responses if and only if they are the same outcome. The three cases and the file contents can all be told apart from the response. |
| StaticFiles.ServeFile | backend/src/main.rs:64-78 | The resolved file is opened first and exactly once. A failed open makes no further call; a successful open is followed by exactly one read to the end of the same path. |
| StaticFiles.DottedSuffixOfResolved | backend/src/main.rs:59 | A suffix beginning with `.` matches the resolved path if and only if it matches the request path. |
| StaticFiles.ContentTypeFollowsRequestPath | backend/src/main.rs:59-80 | For any path other than `/`, the Content-Type of the resolved file equals the type of the request path itself. |
| StaticFiles.RootIsHtml | backend/src/main.rs:57-80 | The root path is typed `text/html`. |
| Database.FetchUsers | backend/src/main.rs:105-163 | Calls made form a non-empty prefix of connect, sign-in, use ns/db, select, in that order. Each call is made only after every earlier one succeeded. Success happens if and only if all four succeeded, and then the users are returned exactly as selected. A failure comes from the last call made, with that call's failure kind. |
| Database.QueryOnlyOnScopedSession | backend/src/main.rs:142-153 | The user-table select is made if and only if connect, sign-in and namespace/database selection all succeeded. |
| Database.SigninFailuresDistinct | backend/src/main.rs:118-139 | After a successful connect, a rejected sign-in reports `AuthFailed` and a timed-out one reports `AuthTimeout`. Neither goes on to select a namespace. |
| Database.NextCall | backend/src/main.rs:105-153 | A live session makes exactly one next call: the pipeline call at its position. A closed session makes none. |
| Database.Advance | backend/src/main.rs:105-163 | Each answer strictly advances the session. The session stays live if and only if the call succeeded and was not the select. A failure closes it with that call's failure kind. A successful select closes it with the selected users. |
| Database.Drive | backend/src/main.rs:105-163 | Running a session makes calls that continue the pipeline from its current state. A closed session makes none and keeps its result. |
| Database.DriveFromFreshIsFetchUsers | backend/src/main.rs:105-163 | Run from a fresh session, the state machine makes the same calls and reaches the same result as the straight-line gateway, for every backend. |
| Api.MessageKind | backend/src/main.rs:109-161 | A recognised error message is exactly the fixed message of the failure kind returned. |
| Api.ErrorKindOf | backend/src/main.rs:109-161 | A body from which a failure kind is recovered is exactly that kind's error JSON. |
| Api.ErrorBodyRoundTrip | backend/src/main.rs:109-161 | Every failure kind's error body reads back as that kind. |
| Api.ErrorBodyShape | backend/src/main.rs:109-161 | Every 500 body is the fixed JSON wrapper `{"error": "` … `"}` around exactly that failure kind's message. |
| Api.FixedErrorBodies | backend/src/main.rs:109-161 | The wrapper is `{"error": "` … `"}`, and the five 500 bodies wrap exactly: `Failed to connect to database`, `Failed to sign in to database`, `Database login timed out`, `Failed to select namespace and database`, and `Failed to fetch data from database`. |
| Api.ConnectFailedBody | backend/src/main.rs:112 | The connect failure body is, as one literal, `{"error": "Failed to connect to database"}`. |
| Api.ErrorBodiesDistinct | backend/src/main.rs:109-161 | Two failure kinds have the same error body if and only if they are the same kind. |
| Api.ApiHandler | backend/src/main.rs:101-178 | Any path other than `/api/data` gets 404 `404 - Not Found` with no Content-Type and no database call. `/api/data` makes exactly the gateway's calls and answers `application/json`. Status 200 happens if and only if the fetch succeeded, and the body is then the users in retrieval order. Status 500 happens if and only if it failed, and the body then names the failure kind. |
| Server.RouteOf | backend/src/main.rs:53-60 | A path goes to the API handler if and only if it starts with `/api`. Otherwise it goes to its resolved file path. |
| Server.Serve | backend/src/main.rs:49-85 | An API path's response and calls are the API handler's. Any other path's response is the file response for its resolved path, and its calls are the open and read of that path. |
| Server.ApiRequestsNeverTouchFiles | backend/src/main.rs:53-55 | A request under `/api` makes only database calls, and its full exchange does not depend on the file system. |
| Server.StaticRequestsNeverTouchDatabase | backend/src/main.rs:53-74 | Any other request makes only file calls on its resolved path, and opens it exactly once, first. Its full exchange does not depend on the database. |
| Server.StaticContentsServed | backend/src/main.rs:57-84 | For any non-API path other than `/`, a file read in full is answered 200 with exactly its bytes, typed by the request path's extension. (For `/` the type is `text/html`; see `Server.RootServedAsHtml`.) |
| Server.RootServedAsHtml | backend/src/main.rs:57-84 | `/` serves the bytes of `static/index.html` as `text/html` with status 200. |
| Server.FileFailuresAnswered | backend/src/main.rs:64-78 | An open or read failure is still answered, with status 200, no Content-Type, and `Error one!` or `Error two!` respectively. |
| Server.ApiPrefixShadowsFiles | backend/src/main.rs:172-177 | Every `/api`-prefixed path other than `/api/data` is answered 404 with no call at all, whatever the static root holds. |
| Server.NearMissApiPathsNotFound | backend/src/main.rs:172-177 | `/api`, `/api/` and `/apix` are answered 404. |
| Server.UnreachableDatabase | backend/src/main.rs:105-113 | If the connect fails, `/api/data` makes only the connect call and answers 500 `application/json` `{"error": "Failed to connect to database"}`. |
| Server.UsersReturnedInOrder | backend/src/main.rs:153-170 | If all four calls succeed, `/api/data` makes all four calls in order and answers 200 `application/json` with the selected users, unfiltered and in order. |

## Left out

- The accept loop, per-connection `tokio::task::spawn` and hyper connection serving (lines 24-47): socket I/O and concurrency. `Serve` models one request's service function.
- Real SurrealDB calls and the 5-second `tokio::time::timeout`: foreign network calls and wall-clock timing. Each call is a `Backend` outcome value. The timeout shows up only as the `SigninTimedOut` outcome and as the `5` carried in the sign-in step.
- Closing or dropping the database connection at the end of a request: it has no effect on the response. The model shows only that no further call is made.
- `File::open` and `read_to_end`: disk I/O. The disk is a function from path to `OpenErr | ReadErr | Contents(bytes)`.
- `println!` and `eprintln!` logging: side effects with no influence on the response.
- The exact bytes of `serde_json::to_string`: the serialiser is library code that is not part of this model. The success body is `UsersJson(users)`, which stands for the serialisation of `users` in order. Text bodies stand for the UTF-8 bytes of their string; no encoding is modelled.
- The `.unwrap()` on each response builder: the headers set are fixed valid literals, so the builder cannot fail.
- The request method and headers: the handler reads only the URI path, so the model takes only the path.
- `frontend/src/lib.rs`: a UI component driven by framework callbacks, not part of the request-handling core.

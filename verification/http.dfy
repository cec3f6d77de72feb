/** The HTTP-visible values the server produces: bodies, headers and status codes. */
module Http {
  import opened Results

  newtype byte = x: int | 0 <= x < 256

  /** The one record the database query returns and the API serialises. */
  datatype User = User(name: string)

  /** A response body.
      - Text(s): the UTF-8 bytes of a literal or formatted string;
      - Octets(b): raw bytes, as read from a file;
      - UsersJson(us): the JSON serialisation of the user list `us`, in order. */
  datatype Body = Text(text: string) | Octets(bytes: seq<byte>) | UsersJson(users: seq<User>)

  /** Status, the Content-Type header if one was set, and the body. */
  datatype Response = Response(status: int, contentType: Option<string>, body: Body)

  /** The status `Response::new` and `Response::builder` use when none is set. */
  const StatusOk := 200
  const StatusNotFound := 404
  const StatusInternalError := 500

  const JsonType := "application/json"
}

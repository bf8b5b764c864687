/**
 * The slice of net/http the handlers see: a request reduced to its method,
 * path and Authorization header, a response reduced to status, headers and
 * body, and the request context reduced to the one value the session
 * middleware stores in it.
 */
module Http {
  import opened Wrappers
  import opened Jwt

  /** An inbound request; `authorization` is None when the header is absent. */
  datatype Request = Request(httpMethod: string, path: string, authorization: Option<string>)

  /** `r.Header.Get("Authorization")`: the header value, or "" when it is absent. */
  function AuthorizationHeader(req: Request): (h: string)
    ensures req.authorization.None? ==> h == ""
    ensures req.authorization.Some? ==> h == req.authorization.value
  {
    req.authorization.GetOr("")
  }

  type Headers = map<string, string>

  /**
   * A response body: literal text, the protected route's JSON object
   * `{"ok": true, "claims": ...}` (claims None is JSON null), or a reply the
   * routing library writes on its own.
   */
  datatype Body = Text(text: string) | ClaimsJson(claims: Option<Claims>) | LibraryDefault

  datatype Response = Response(status: int, headers: Headers, body: Body)

  /** The request context: the verified claims, once the session middleware has attached them. */
  datatype Context = Context(shopifyClaims: Option<Claims>)

  /** `context.Background()`: nothing attached. */
  const Background: Context := Context(None)

  /** An http.Handler: what a handler writes for a request served with a context. */
  type Handler = (Request, Context) -> Response

  const MethodGet: string := "GET"
  const MethodOptions: string := "OPTIONS"

  const StatusOK: int := 200
  const StatusNoContent: int := 204
  const StatusUnauthorized: int := 401
  const StatusNotFound: int := 404
  const StatusMethodNotAllowed: int := 405

  const ContentType: string := "Content-Type"

  /** http.Error: a plain-text reply carrying the message and a newline. */
  function Error(message: string, code: int): (r: Response)
    ensures r.status == code && r.body == Text(message + "\n")
    ensures ContentType in r.headers && r.headers[ContentType] == "text/plain; charset=utf-8"
    ensures "X-Content-Type-Options" in r.headers && r.headers["X-Content-Type-Options"] == "nosniff"
  {
    Response(code, map[ContentType := "text/plain; charset=utf-8", "X-Content-Type-Options" := "nosniff"],
             Text(message + "\n"))
  }
}

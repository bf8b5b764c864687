/**
 * The HTTP surface of the service: the permissive CORS middleware wrapped
 * around every route, the open `GET /ping`, the `GET /protected/ping` route
 * behind the session middleware, and the typed lookup of the verified claims
 * in a request context.
 */
module Router {
  import opened Wrappers
  import opened Jwt
  import opened Http
  import opened Config
  import opened Session
  import opened ShopDomain
  import opened Strings

  const AllowOrigin: string := "Access-Control-Allow-Origin"
  const AllowMethods: string := "Access-Control-Allow-Methods"
  const AllowHeaders: string := "Access-Control-Allow-Headers"

  /** The headers AllowAllCORS sets on every response. */
  const CorsHeaders: Headers := map[
    AllowOrigin := "*",
    AllowMethods := "GET, POST, PUT, PATCH, DELETE, OPTIONS",
    AllowHeaders := "Authorization, Content-Type"]

  const PingPath: string := "/ping"
  const ProtectedPingPath: string := "/protected/ping"

  /** `headers` carries every CORS header with its value. */
  predicate HasCorsHeaders(headers: Headers) {
    forall k :: k in CorsHeaders ==> k in headers && headers[k] == CorsHeaders[k]
  }

  /**
   * AllowAllCORS wrapped around `next`: the CORS headers are set first, a
   * preflight (OPTIONS) is answered 204 at once, and any other request is
   * served by `next`, whose own headers are written over the CORS ones.
   */
  function AllowAllCORS(next: Handler, req: Request, ctx: Context): (resp: Response)
    ensures req.httpMethod == MethodOptions ==>
      resp.status == StatusNoContent && resp.headers == CorsHeaders && resp.body == Text("")
    ensures req.httpMethod != MethodOptions ==>
      var inner := next(req, ctx);
      && resp.status == inner.status && resp.body == inner.body
      && resp.headers.Keys == CorsHeaders.Keys + inner.headers.Keys
      && (forall k :: k in inner.headers ==> resp.headers[k] == inner.headers[k])
      && (forall k :: k in CorsHeaders && k !in inner.headers ==> resp.headers[k] == CorsHeaders[k])
  {
    if req.httpMethod == MethodOptions then
      Response(StatusNoContent, CorsHeaders, Text(""))
    else
      var inner := next(req, ctx);
      Response(inner.status, CorsHeaders + inner.headers, inner.body)
  }

  /**
   * ClaimsFromContext: the claims the session middleware attached, and
   * whether there were any; with none attached the claims are the nil map.
   */
  function ClaimsFromContext(ctx: Context): (r: (Claims, bool))
    ensures r.1 <==> ctx.shopifyClaims.Some?
    ensures r.1 ==> r.0 == ctx.shopifyClaims.value
    ensures !r.1 ==> r.0 == map[]
  {
    match ctx.shopifyClaims
    case Some(claims) => (claims, true)
    case None => (map[], false)
  }

  /** The `GET /ping` handler. */
  function Ping(req: Request, ctx: Context): Response {
    Response(StatusOK, map[ContentType := "text/plain; charset=utf-8"], Text("pong"))
  }

  /**
   * The `GET /protected/ping` handler: `{"ok": true, "claims": ...}` with the
   * claims found in the context, JSON null when there are none.
   */
  function ProtectedPing(req: Request, ctx: Context): Response {
    var (claims, ok) := ClaimsFromContext(ctx);
    Response(StatusOK, map[ContentType := "application/json; charset=utf-8"],
             ClaimsJson(if ok then Some(claims) else None))
  }

  /**
   * The methods the routing library knows; a request with any other method
   * is refused 405 before its path is looked at.
   */
  const KnownMethods: set<string> :=
    {"CONNECT", "DELETE", "GET", "HEAD", "OPTIONS", "PATCH", "POST", "PUT", "TRACE"}

  /** The routing library's reply to a path with no route: net/http's plain-text 404. */
  const NotFound: Response := Error("404 page not found", StatusNotFound)

  /** The routing library's reply to a known path requested with another method. */
  const MethodNotAllowed: Response := Response(StatusMethodNotAllowed, map[], LibraryDefault)

  /**
   * The routes of NewRouter: exact path matches, GET only, with the session
   * middleware in front of the protected route alone.
   */
  function Dispatch(cfg: Config, verify: Verifier, req: Request, ctx: Context): Response {
    if req.httpMethod !in KnownMethods then MethodNotAllowed
    else if req.path == PingPath then
      if req.httpMethod == MethodGet then Ping(req, ctx) else MethodNotAllowed
    else if req.path == ProtectedPingPath then
      if req.httpMethod == MethodGet then
        SessionMiddleware(cfg.shopifyApiKey, cfg.shopifyApiSecret, verify, ProtectedPing, req, ctx)
      else MethodNotAllowed
    else NotFound
  }

  /** The handler NewRouter returns, serving one request that arrives with an empty context. */
  function Route(cfg: Config, verify: Verifier, req: Request): Response {
    AllowAllCORS((r, c) => Dispatch(cfg, verify, r, c), req, Background)
  }

  /** The authentication attempt a request to the protected route makes. */
  function AttemptOf(cfg: Config, verify: Verifier, req: Request): Attempt {
    Attempt(AuthorizationHeader(req), cfg.shopifyApiKey, cfg.shopifyApiSecret, verify)
  }

  // ---------------------------------------------------------------------------
  // Lemmas
  // ---------------------------------------------------------------------------

  /** Claims attached to a context are found there again, unchanged. */
  lemma ClaimsFromContextRoundTrip(ctx: Context, claims: Claims)
    ensures ClaimsFromContext(ctx.(shopifyClaims := Some(claims))) == (claims, true)
    ensures ClaimsFromContext(Background) == (map[], false)
  {
  }

  /** None of the route handlers, nor the library's replies, sets a CORS header. */
  lemma DispatchSetsNoCorsHeader(cfg: Config, verify: Verifier, req: Request, ctx: Context)
    ensures forall k :: k in CorsHeaders ==> k !in Dispatch(cfg, verify, req, ctx).headers
  {
    if req.path == ProtectedPingPath && req.httpMethod == MethodGet {
      var a := AttemptOf(cfg, verify, req);
      AuthenticateIsFirstFailure(a);
    }
  }

  /** Every response the router writes carries the CORS headers with their values. */
  lemma CorsOnEveryResponse(cfg: Config, verify: Verifier, req: Request)
    ensures HasCorsHeaders(Route(cfg, verify, req).headers)
  {
    DispatchSetsNoCorsHeader(cfg, verify, req, Background);
  }

  /**
   * A preflight request is answered 204 with the CORS headers on any path,
   * before routing and authentication: the configuration, the verifier and
   * the Authorization header make no difference.
   */
  lemma PreflightShortCircuits(cfg: Config, verify: Verifier, req: Request,
                               cfg': Config, verify': Verifier, req': Request)
    requires req.httpMethod == MethodOptions && req'.httpMethod == MethodOptions
    ensures Route(cfg, verify, req) == Route(cfg', verify', req')
    ensures Route(cfg, verify, req) == Response(StatusNoContent, CorsHeaders, Text(""))
  {
  }

  /** `GET /ping` answers "pong" whatever the Authorization header holds. */
  lemma PingIsOpen(cfg: Config, verify: Verifier, req: Request)
    requires req.httpMethod == MethodGet && req.path == PingPath
    ensures Route(cfg, verify, req).status == StatusOK
    ensures Route(cfg, verify, req).body == Text("pong")
    ensures ContentType in Route(cfg, verify, req).headers
    ensures Route(cfg, verify, req).headers[ContentType] == "text/plain; charset=utf-8"
  {
  }

  /**
   * The protected route serves 200 exactly when the session middleware
   * accepts; the body then carries the verified claims, and a rejection is a
   * 401 whose text names the first gate the request does not clear.
   */
  lemma ProtectedRouteDecision(cfg: Config, verify: Verifier, req: Request)
    requires req.httpMethod == MethodGet && req.path == ProtectedPingPath
    ensures var resp, a := Route(cfg, verify, req), AttemptOf(cfg, verify, req);
      && (resp.status == StatusOK <==> ClearsAll(a))
      && (resp.status == StatusOK ==> resp.body == ClaimsJson(Some(VerifiedClaims(a))))
      && (resp.status != StatusOK ==>
            resp.status == StatusUnauthorized && FirstFailure(a).Some?
            && resp.body == Text(Message(FirstFailure(a).value) + "\n"))
  {
    var a := AttemptOf(cfg, verify, req);
    AuthenticateIsFirstFailure(a);
    AcceptsExactlyWhenAllGatesClear(a);
  }

  /** A request to the protected route without an Authorization header is refused. */
  lemma ProtectedRouteRequiresHeader(cfg: Config, verify: Verifier, req: Request)
    requires req.httpMethod == MethodGet && req.path == ProtectedPingPath
    requires req.authorization.None?
    ensures Route(cfg, verify, req).status == StatusUnauthorized
    ensures Route(cfg, verify, req).body == Text("missing Authorization header\n")
  {
    var a := AttemptOf(cfg, verify, req);
    BlankHeaderRejected(a);
  }

  /**
   * A Shopify session token for one shop, presented as "Bearer <token>" to
   * the protected route, is served 200 with its claims in the body.
   */
  lemma ProtectedRouteAcceptsShopToken(cfg: Config, verify: Verifier, req: Request, token: string,
                                       c: Claims, h: string, path: string, tail: string)
    requires req.httpMethod == MethodGet && req.path == ProtectedPingPath
    requires req.authorization == Some(BearerPrefix + token) && token != "" && Trimmed(token)
    requires verify(token, cfg.shopifyApiSecret) == Some(c)
    requires ValidHost(h)
    requires path == [] || path[0] == '/'
    requires tail == "" || tail == "/"
    requires ShopTokenClaims(c, cfg.shopifyApiKey, HttpsScheme + h + path, HttpsScheme + h + tail)
    ensures Route(cfg, verify, req).status == StatusOK
    ensures Route(cfg, verify, req).body == ClaimsJson(Some(c))
  {
    AcceptsShopToken(AttemptOf(cfg, verify, req), token, c, h, path, tail);
  }

  /** Methods other than GET on a known path are refused before any authentication. */
  lemma OtherMethodsNotAllowed(cfg: Config, verify: Verifier, req: Request)
    requires req.path == PingPath || req.path == ProtectedPingPath
    requires req.httpMethod != MethodGet && req.httpMethod != MethodOptions
    ensures Route(cfg, verify, req).status == StatusMethodNotAllowed
  {
  }

  /** A known method other than OPTIONS on a path without a route gets the plain-text 404. */
  lemma UnknownPathNotFound(cfg: Config, verify: Verifier, req: Request)
    requires req.httpMethod in KnownMethods && req.httpMethod != MethodOptions
    requires req.path != PingPath && req.path != ProtectedPingPath
    ensures Route(cfg, verify, req).status == StatusNotFound
    ensures Route(cfg, verify, req).body == Text("404 page not found\n")
    ensures HasCorsHeaders(Route(cfg, verify, req).headers)
  {
    CorsOnEveryResponse(cfg, verify, req);
  }

  /** A method the routing library does not know is refused 405 on every path. */
  lemma UnknownMethodNotAllowed(cfg: Config, verify: Verifier, req: Request)
    requires req.httpMethod !in KnownMethods
    ensures Route(cfg, verify, req).status == StatusMethodNotAllowed
  {
  }
}

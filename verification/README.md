# Shopify session-token gate — a Dafny model

The service is a small Go HTTP API for a Shopify app. It reads a
configuration with the app's API key and secret. It serves an open
`GET /ping` and a `GET /protected/ping` behind a middleware that checks the
Shopify session token. Every response carries permissive CORS headers.

The middleware trims the `Authorization` header and requires it to start
with `Bearer `. It has the token verified (HS256 with the API secret) and then
checks the claims in a fixed order:
1. the first audience must be the API key;
2. the issuer must be a non-empty string;
3. `dest` must be present;
4. `dest` must be a non-blank string;
5. the shop host taken from the issuer must equal the shop host taken from the destination.

The first check that fails decides the 401 message. An accepted request
reaches the handler with the claims in its context.

This project models that core:

| file | module | models |
|---|---|---|
| `wrappers.dfy` | `Wrappers` | `Option` and `Result` |
| `strings.dfy` | `Strings` | the Go `strings` functions the core uses (TrimSpace, TrimPrefix, TrimSuffix, HasPrefix, ToLower, SplitN(…, "/", 2)[0]) |
| `jwt.dfy` | `Jwt` | JSON claim values, `MapClaims`, the library's `GetAudience` / `GetIssuer`, and the verifier as a function parameter |
| `config.dfy` | `Config` | `config.Load` after the YAML has been decoded |
| `http.dfy` | `Http` | requests, responses, the request context, and `http.Error` |
| `shop.dfy` | `ShopDomain` | `hostFromIssuer` and `extractShopDomain` |
| `session.dfy` | `Session` | the middleware's gate, a gate-by-gate reference reading, and the theorems that connect the two |
| `router.dfy` | `Router` | `AllowAllCORS`, the routes of `NewRouter`, and `ClaimsFromContext` |

The central result is `Session.AuthenticateIsFirstFailure`. The middleware's
nested decision equals an independent reading: "reject with the first gate
the request does not clear, otherwise accept the verifier's claims".
`Session.AcceptsExactlyWhenAllGatesClear` is its if-and-only-if corollary.

Tenant isolation has its own lemma. Claims whose issuer and destination name
different shops are rejected (`Session.RejectsCrossShop`).

A real session token for one shop is accepted end to end
(`Session.AcceptsShopToken`, `Router.ProtectedRouteAcceptsShopToken`).

Two quirks of the code are stated as lemmas:
- The "missing bearer token" branch can never be reached
  (`Session.MissingBearerTokenUnreachable`). A trimmed header that starts with
  `Bearer ` cannot end in that prefix's space.
- An issuer and a destination that both write the scheme as `HTTPS://` are
  rejected, although they name the same shop (`Session.RejectsUpperCaseScheme`).
  The issuer is lower-cased before its scheme is stripped. The destination's
  scheme is stripped case-sensitively, before it is lower-cased.

## Model

| member | source | states |
|---|---|---|
| Strings.TrimSpaceBlank | internal/httpapi/shopify_session_middleware.go:36-37 | trimming leaves the empty string exactly when the input is all white space |
| Strings.TrimSpaceKeepsChars | internal/httpapi/shopify_session_middleware.go:26 | trimming keeps a contiguous slice of the input, so it adds no character |
| Strings.TrimSpaceIdempotent | internal/config/config.go:28 | trimming twice is trimming once |
| Strings.TrimSpaceOfPadded | internal/config/config.go:28-37 | white space around an already-trimmed value is removed and the value is kept |
| Strings.ToLowerNoUpper | internal/httpapi/shopify_session_middleware.go:22 | a lower-cased string holds no upper-case letter |
| Jwt.GetAudience | internal/httpapi/shopify_session_middleware.go:69-70 | the audience list: a string gives a one-element list, a string array gives its items, an array with a non-string item is an error, and anything else gives an empty list |
| Jwt.GetIssuer | internal/httpapi/shopify_session_middleware.go:75-76 | the issuer: missing gives "", a string gives itself, and any other JSON value is an error |
| Config.Load | internal/config/config.go:28-39 | fails exactly when the key or the secret is blank, and then returns the zero config; otherwise every field is usable, the key and secret are their trimmed values, and a blank port becomes 9998 |
| Config.LoadKeepsUsable | internal/config/config.go:28-39 | an already usable configuration loads unchanged |
| Config.LoadIdempotent | internal/config/config.go:28-39 | loading twice is loading once: an accepted configuration loads unchanged, and a refusal's zero configuration is refused again |
| Config.LoadStripsPadding | internal/config/config.go:28-37 | port, key and secret, each padded with its own white space, load as the bare values, and a blank port loads as the default |
| ShopDomain.HostFromIssuer | internal/httpapi/shopify_session_middleware.go:25-31 | the issuer host never holds a '/' |
| ShopDomain.IssuerHostIsLowerCase | internal/httpapi/shopify_session_middleware.go:25-31 | the issuer host holds no upper-case letter |
| ShopDomain.HostFromIssuerOf | internal/httpapi/shopify_session_middleware.go:25-31 | an issuer URL "scheme://host/path" with http or https in any letter case, or no scheme, yields the lower-cased host |
| ShopDomain.ExtractShopDomain | internal/httpapi/shopify_session_middleware.go:14-23 | a successful result is never empty |
| ShopDomain.StripSchemesEmpty | internal/httpapi/shopify_session_middleware.go:16-19 | stripping "https://", "http://" and one trailing '/' leaves nothing exactly when the text is one of eight: "", "/", "http://", "http:///", "https://", "https:///", "https://http://", "https://http:///" |
| ShopDomain.ExtractShopDomainFails | internal/httpapi/shopify_session_middleware.go:14-23 | the destination is refused exactly when its trimmed text is one of those eight; every other destination yields a host |
| ShopDomain.BlankDestinationFails | internal/httpapi/shopify_session_middleware.go:14-21 | a blank destination is the "empty shop domain" error |
| ShopDomain.DestinationHostIsLowerCase | internal/httpapi/shopify_session_middleware.go:14-23 | a destination host holds no upper-case letter |
| ShopDomain.ExtractShopDomainOf | internal/httpapi/shopify_session_middleware.go:14-23 | a destination "scheme://host" with a lower-case http or https scheme or none, and an optional trailing '/', yields the lower-cased host |
| ShopDomain.UpperSchemeKeptInDestination | internal/httpapi/shopify_session_middleware.go:14-31 | for "HTTPS://host" the issuer yields the host, but the destination keeps the lower-cased scheme in front of it |
| Session.BlankHeaderRejected | internal/httpapi/shopify_session_middleware.go:36-40 | a missing or blank Authorization header is rejected as missing |
| Session.NonBearerHeaderRejected | internal/httpapi/shopify_session_middleware.go:42-46 | a non-blank header that does not start with "Bearer " after trimming is rejected as badly formatted |
| Session.BearerTokenNonEmpty | internal/httpapi/shopify_session_middleware.go:48-52 | after a trimmed "Bearer " prefix the token is never empty |
| Session.BearerHeaderVerified | internal/httpapi/shopify_session_middleware.go:48-67 | a bearer header's token goes to the verifier: no claims is an invalid token, and verified claims go on to the claim gates |
| Session.AudienceGateAgrees | internal/httpapi/shopify_session_middleware.go:69-73 | the audience test through the library's list holds exactly when the raw `aud` claim names the API key first |
| Session.WrongAudienceRejected | internal/httpapi/shopify_session_middleware.go:69-73 | claims with another audience are rejected at the audience gate |
| Session.NoIssuerRejected | internal/httpapi/shopify_session_middleware.go:75-79 | past the audience gate, a missing, non-string or empty issuer is rejected |
| Session.NoDestinationRejected | internal/httpapi/shopify_session_middleware.go:81-85 | past the issuer gate, claims without `dest` are rejected |
| Session.BadDestinationRejected | internal/httpapi/shopify_session_middleware.go:86-90 | past that, a non-string or blank `dest` is rejected |
| Session.ClaimsReachHostGate | internal/httpapi/shopify_session_middleware.go:69-101 | claims that clear the first four claim gates are decided by the host comparison |
| Session.HostGateDecides | internal/httpapi/shopify_session_middleware.go:92-101 | past the first four claim gates, the claims are accepted exactly when issuer and destination name the same shop |
| Session.CheckClaimsIsFirstFailure | internal/httpapi/shopify_session_middleware.go:69-101 | the claim checks reject with the first claim gate not cleared, in source order, and otherwise accept the claims unchanged |
| Session.AuthenticateIsFirstFailure | internal/httpapi/shopify_session_middleware.go:36-101 | the middleware rejects with the first gate not cleared, in source order, and otherwise accepts the claims the verifier returned |
| Session.MissingBearerTokenUnreachable | internal/httpapi/shopify_session_middleware.go:48-52 | the "missing bearer token" rejection never happens |
| Session.AcceptsExactlyWhenAllGatesClear | internal/httpapi/shopify_session_middleware.go:36-101 | a request is accepted exactly when it clears every gate, and the accepted claims are the verifier's |
| Session.BearerTokenOfPadded | internal/httpapi/shopify_session_middleware.go:36-48 | "Bearer <token>" with white space around it passes the format gate and yields the token |
| Session.SameShopOf | internal/httpapi/shopify_session_middleware.go:92-94 | issuer "https://host/path" and destination "https://host" with one host name the same shop |
| Session.NotSameShopOf | internal/httpapi/shopify_session_middleware.go:92-94 | issuer and destination URLs whose hosts differ beyond letter case do not name the same shop |
| Session.ShopTokenReachesHostGate | internal/httpapi/shopify_session_middleware.go:69-90 | session-token-shaped claims clear the audience, issuer and destination gates |
| Session.ShopTokenClaimsClear | internal/httpapi/shopify_session_middleware.go:69-101 | session-token claims for one shop clear every claim gate and are accepted unchanged |
| Session.AcceptsShopToken | internal/httpapi/shopify_session_middleware.go:36-101 | a "Bearer <token>" header whose token verifies to session-token claims for one shop is accepted with exactly those claims |
| Session.RejectsCrossShop | internal/httpapi/shopify_session_middleware.go:92-97 | claims whose issuer and destination name different shops are rejected at the host comparison |
| Session.RejectsUpperCaseScheme | internal/httpapi/shopify_session_middleware.go:14-31 | issuer and destination that both write "HTTPS://host" are rejected as a mismatch |
| Router.AllowAllCORS | internal/httpapi/router.go:45-58 | OPTIONS is answered 204 with only the CORS headers; any other request gets the inner handler's status and body, the CORS headers, and the inner handler's own headers on top |
| Router.ClaimsFromContext | internal/httpapi/router.go:60-63 | the flag says whether claims were attached; if so they are returned, otherwise the nil map |
| Router.ClaimsFromContextRoundTrip | internal/httpapi/router.go:60-63 | claims attached to a context are found there again; an empty context has none |
| Router.CorsOnEveryResponse | internal/httpapi/router.go:19-58 | every response of the router, whether 200, 401, 404 or 405, carries the three CORS headers with their values |
| Router.PreflightShortCircuits | internal/httpapi/router.go:45-54 | every OPTIONS request gets the same 204 reply, whatever its path, configuration, verifier or header |
| Router.PingIsOpen | internal/httpapi/router.go:27-30 | `GET /ping` answers 200 "pong" as `text/plain; charset=utf-8`, whatever the Authorization header holds |
| Router.ProtectedRouteDecision | internal/httpapi/router.go:32-40 | `GET /protected/ping` answers 200 with the verified claims exactly when every gate clears, and otherwise 401 with the first failing gate's message |
| Router.ProtectedRouteRequiresHeader | internal/httpapi/router_test.go:104-122 | the protected route without an Authorization header answers 401 "missing Authorization header" |
| Router.ProtectedRouteAcceptsShopToken | internal/httpapi/router_test.go:124-166 | a valid session token for one shop gets 200 with its claims |
| Router.OtherMethodsNotAllowed | internal/httpapi/router.go:27-40 | other methods on the two paths answer 405 without authentication |
| Router.UnknownPathNotFound | internal/httpapi/router.go:19-43 | a known method other than OPTIONS on any path without a route answers net/http's plain-text 404, still with the CORS headers |
| Router.UnknownMethodNotAllowed | internal/httpapi/router.go:19-43 | a method outside the routing library's method table answers 405 on every path |

## Left out

- Token parsing and verification (HS256 only, the secret as the key, the 5-second leeway for the time claims) is the parameter `verify: (token, secret) -> Option<Claims>`. The model states what the middleware does with its answer, not how signatures or expiry are checked.
- `strings.TrimSpace` and `strings.ToLower` handle all of Unicode. The model covers the ASCII white space (space, `\t`, `\n`, `\v`, `\f`, `\r`) and ASCII letters only. U+0085, U+00A0, the other Unicode spaces and non-ASCII letters are not modelled.
- JSON numbers in claims are `int`. No gate looks at a numeric value.
- `LogClaims` and the `log.Printf` calls are left out because they only write logs.
- The JSON encoding of the `{"ok": true, "claims": …}` body is the abstract `ClaimsJson(claims)`. JSON marshalling is left out.
- The context holds only the claims key. Other context values are not modelled.
- The chi middlewares `RequestID`, `RealIP`, `Logger` and `Recoverer` are left out. They neither change the status nor the body of a response that does not panic.
- The routing library's own replies follow chi v5 and net/http, whose source is not part of this model. An unknown method gets 405 on any path. An unknown path gets `http.NotFound`'s plain-text "404 page not found". The `Allow` header and the empty body of the 405 reply are not modelled; its body is the abstract `LibraryDefault`.
- `config.Load` reading the file and decoding the YAML (`internal/config/config.go:17-26`) is left out. `Config.Load` starts from the decoded values.
- `cmd/server/main.go` (starting the server on the configured port) is left out because it is I/O.
- Http.Error: stand-in for net/http's `http.Error` (status, plain-text content type, `nosniff`, message and newline). Writing the response is out of scope, so it has no row; its ensures only spell out the reply it builds.
- Http.AuthorizationHeader: stand-in for `r.Header.Get("Authorization")` (the value, or "" when the header is absent). Header parsing is out of scope; its behaviour is used through `Router.ProtectedRouteRequiresHeader` and `Router.ProtectedRouteAcceptsShopToken`.
- Config.Load: the error's message text ("shopify_api_key and shopify_api_secret are required") is not modelled. The error is the single value `MissingCredentials`.
- Router.Route and Router.Dispatch: model `NewRouter` (router.go:19-43) and carry no `ensures` of their own. Their behaviour is stated by `Router.CorsOnEveryResponse`, `Router.PreflightShortCircuits`, `Router.PingIsOpen`, `Router.ProtectedRouteDecision`, `Router.OtherMethodsNotAllowed`, `Router.UnknownPathNotFound` and `Router.UnknownMethodNotAllowed`.
- Router.Ping and Router.ProtectedPing: model the two handlers (router.go:27-30, 32-40) and carry no `ensures`. What they answer is stated by `Router.PingIsOpen` and `Router.ProtectedRouteDecision`.
- Session.HostsMatch: models the host comparison (shopify_session_middleware.go:92-94) and carries no `ensures`. What it decides is stated by `Session.SameShopOf`, `Session.NotSameShopOf`, `Session.RejectsCrossShop`, `Session.RejectsUpperCaseScheme` and `ShopDomain.ExtractShopDomainFails`. `Session.HostsMatchIsSameShop` only restates it in the reference's terms, for `Session.HostGateDecides`.
- Session.BearerToken: models the token extraction (shopify_session_middleware.go:48) and carries no `ensures`. `Session.BearerTokenNonEmpty` and `Session.BearerTokenOfPadded` state what it yields.
- Session.SessionMiddleware: the function carries no `ensures` of its own. Its behaviour is stated through `Session.AuthenticateIsFirstFailure` and the `Router.ProtectedRoute…` lemmas.
- Session.Authenticate and Session.CheckClaims: these model the code line by line and carry no `ensures`. What they decide is stated by `AuthenticateIsFirstFailure` and `CheckClaimsIsFirstFailure`.

/**
 * The session-token middleware that guards the protected routes: it takes
 * the bearer token from the Authorization header, has it verified, and then
 * checks the audience, issuer and destination claims, binding the issuer's
 * shop host to the destination's. Every check is a hard gate; the first one
 * that fails decides the 401 message.
 */
module Session {
  import opened Wrappers
  import opened Strings
  import opened Jwt
  import opened Http
  import opened ShopDomain

  const BearerPrefix: string := "Bearer "

  // ---------------------------------------------------------------------------
  // The gate
  // ---------------------------------------------------------------------------

  /** The gates, in the order the middleware evaluates them, each named by how it fails. */
  datatype Rejection =
    | MissingHeader
    | BadHeaderFormat
    | MissingBearerToken
    | InvalidToken
    | InvalidAudience
    | MissingIssuer
    | MissingDestination
    | InvalidDestination
    | HostMismatch

  /** The body text of the 401 reply for each failing gate. */
  function Message(g: Rejection): string {
    match g
    case MissingHeader => "missing Authorization header"
    case BadHeaderFormat => "invalid Authorization header format"
    case MissingBearerToken => "missing bearer token"
    case InvalidToken => "invalid session token"
    case InvalidAudience => "invalid token audience"
    case MissingIssuer => "missing issuer"
    case MissingDestination => "missing destination"
    case InvalidDestination => "invalid destination"
    case HostMismatch => "issuer and destination mismatch"
  }

  /** The middleware's verdict: a failing gate, or the verified claims. */
  datatype Decision = Reject(reason: Rejection) | Accept(claims: Claims)

  /** The token handed to the verifier: what follows "Bearer " in the trimmed header, trimmed again. */
  function BearerToken(header: string): string {
    TrimSpace(TrimPrefix(TrimSpace(header), BearerPrefix))
  }

  /**
   * The decision of ShopifySessionTokenMiddleware for one Authorization
   * header value, with token parsing and signature checking done by `verify`.
   */
  function Authenticate(header: string, apiKey: string, apiSecret: string, verify: Verifier): Decision
  {
    var authHeader := TrimSpace(header);
    if authHeader == "" then Reject(MissingHeader)
    else if !HasPrefix(authHeader, BearerPrefix) then Reject(BadHeaderFormat)
    else
      var tokenString := TrimSpace(TrimPrefix(authHeader, BearerPrefix));
      if tokenString == "" then Reject(MissingBearerToken)
      else match verify(tokenString, apiSecret)
        case None => Reject(InvalidToken)
        case Some(claims) => CheckClaims(claims, apiKey)
  }

  /** The gates on the verified claims: audience, issuer, destination, and the shop binding. */
  function CheckClaims(claims: Claims, apiKey: string): Decision
  {
    var aud := GetAudience(claims);
    if aud.None? || |aud.value| == 0 || aud.value[0] != apiKey then Reject(InvalidAudience)
    else
      var iss := GetIssuer(claims);
      if iss.None? || iss.value == "" then Reject(MissingIssuer)
      else if "dest" !in claims then Reject(MissingDestination)
      else if !claims["dest"].Str? || TrimSpace(claims["dest"].text) == "" then Reject(InvalidDestination)
      else if !HostsMatch(iss.value, claims["dest"].text) then Reject(HostMismatch)
      else Accept(claims)
  }

  /** The middleware's host comparison: both hosts are known and non-empty, and equal. */
  predicate HostsMatch(issuer: string, destination: string) {
    var issHost := HostFromIssuer(issuer);
    var destHost := ExtractShopDomain(destination);
    !(destHost.Failure? || issHost == "" || destHost.value == "" || issHost != destHost.value)
  }

  /**
   * ShopifySessionTokenMiddleware wrapped around `next`: a rejection is
   * answered with 401 and the gate's message and `next` does not run; an
   * accepted request is passed on with the claims attached to its context.
   */
  function SessionMiddleware(apiKey: string, apiSecret: string, verify: Verifier, next: Handler,
                             req: Request, ctx: Context): (resp: Response)
  {
    match Authenticate(AuthorizationHeader(req), apiKey, apiSecret, verify)
    case Reject(g) => Error(Message(g), StatusUnauthorized)
    case Accept(claims) => next(req, ctx.(shopifyClaims := Some(claims)))
  }

  // ---------------------------------------------------------------------------
  // Reference reading of the gates
  // ---------------------------------------------------------------------------

  /** Everything one authentication attempt depends on. */
  datatype Attempt = Attempt(header: string, apiKey: string, apiSecret: string, verify: Verifier)

  /** The decision the middleware reaches on an attempt. */
  function Decide(a: Attempt): Decision {
    Authenticate(a.header, a.apiKey, a.apiSecret, a.verify)
  }

  /** What the verifier returns for the attempt's bearer token. */
  function Verified(a: Attempt): Option<Claims> {
    a.verify(BearerToken(a.header), a.apiSecret)
  }

  /** The claims the verifier returns for the attempt's bearer token, or none. */
  function VerifiedClaims(a: Attempt): Claims {
    Verified(a).GetOr(map[])
  }

  /** The claim `name` when it is a string, "" otherwise. */
  function TextClaim(claims: Claims, name: string): string {
    if name in claims && claims[name].Str? then claims[name].text else ""
  }

  /** The first audience named by `aud` is exactly `apiKey`; later entries do not matter. */
  predicate AudienceIs(claims: Claims, apiKey: string) {
    && "aud" in claims
    && (|| claims["aud"] == Str(apiKey)
        || (claims["aud"].StrList? && claims["aud"].items != [] && claims["aud"].items[0] == apiKey))
  }

  /** The issuer and the destination name the same, non-empty shop host. */
  predicate SameShop(issuer: string, destination: string) {
    var host := HostFromIssuer(issuer);
    host != "" && ExtractShopDomain(destination) == Success(host)
  }

  /** Whether claims clear a claim gate, read from the raw claim map. */
  predicate ClaimsClear(g: Rejection, claims: Claims, apiKey: string) {
    match g
    case InvalidAudience => AudienceIs(claims, apiKey)
    case MissingIssuer => TextClaim(claims, "iss") != ""
    case MissingDestination => "dest" in claims
    case InvalidDestination => "dest" in claims && claims["dest"].Str? && !AllSpace(claims["dest"].text)
    case HostMismatch => SameShop(TextClaim(claims, "iss"), TextClaim(claims, "dest"))
    case _ => true
  }

  /** Whether an attempt clears gate `g`, judged on that gate alone. */
  predicate Clears(g: Rejection, a: Attempt) {
    match g
    case MissingHeader => !AllSpace(a.header)
    case BadHeaderFormat => HasPrefix(TrimSpace(a.header), BearerPrefix)
    case MissingBearerToken => BearerToken(a.header) != ""
    case InvalidToken => Verified(a).Some?
    case _ => ClaimsClear(g, VerifiedClaims(a), a.apiKey)
  }

  /**
   * The first gate the attempt does not clear, in the order the gates are
   * listed in Rejection, or None when it clears them all.
   */
  function FirstFailure(a: Attempt): Option<Rejection> {
    if !Clears(MissingHeader, a) then Some(MissingHeader)
    else if !Clears(BadHeaderFormat, a) then Some(BadHeaderFormat)
    else if !Clears(MissingBearerToken, a) then Some(MissingBearerToken)
    else if !Clears(InvalidToken, a) then Some(InvalidToken)
    else ClaimFailure(VerifiedClaims(a), a.apiKey)
  }

  /** The first claim gate the claims do not clear, or None when they clear them all. */
  function ClaimFailure(c: Claims, k: string): Option<Rejection> {
    if !ClaimsClear(InvalidAudience, c, k) then Some(InvalidAudience)
    else if !ClaimsClear(MissingIssuer, c, k) then Some(MissingIssuer)
    else if !ClaimsClear(MissingDestination, c, k) then Some(MissingDestination)
    else if !ClaimsClear(InvalidDestination, c, k) then Some(InvalidDestination)
    else if !ClaimsClear(HostMismatch, c, k) then Some(HostMismatch)
    else None
  }

  /** The attempt clears every gate. */
  predicate ClearsAll(a: Attempt) {
    && Clears(MissingHeader, a) && Clears(BadHeaderFormat, a) && Clears(MissingBearerToken, a)
    && Clears(InvalidToken, a) && Clears(InvalidAudience, a) && Clears(MissingIssuer, a)
    && Clears(MissingDestination, a) && Clears(InvalidDestination, a) && Clears(HostMismatch, a)
  }

  // ---------------------------------------------------------------------------
  // Lemmas
  // ---------------------------------------------------------------------------

  /**
   * Once the trimmed header starts with "Bearer ", the token after it is
   * never empty: the trimmed header cannot end in the prefix's space.
   */
  lemma BearerTokenNonEmpty(header: string)
    requires HasPrefix(TrimSpace(header), BearerPrefix)
    ensures BearerToken(header) != ""
  {
    var h := TrimSpace(header);
    var rest := TrimPrefix(h, BearerPrefix);
    assert BearerPrefix + rest == h;
    assert h[|BearerPrefix| - 1] == ' ';
    assert |h| != |BearerPrefix|;
    assert rest[|rest| - 1] == h[|h| - 1];
    assert !AllSpace(rest);
    TrimSpaceBlank(rest);
  }

  /** A header that is empty or only white space is rejected as missing. */
  lemma BlankHeaderRejected(a: Attempt)
    requires !Clears(MissingHeader, a)
    ensures Decide(a) == Reject(MissingHeader)
  {
    TrimSpaceBlank(a.header);
  }

  /** A present header whose trimmed text does not start with "Bearer " is rejected as badly formatted. */
  lemma NonBearerHeaderRejected(a: Attempt)
    requires Clears(MissingHeader, a) && !Clears(BadHeaderFormat, a)
    ensures Decide(a) == Reject(BadHeaderFormat)
  {
    TrimSpaceBlank(a.header);
  }

  /**
   * A well-formed bearer header hands its token to the verifier: no claims
   * is an invalid token, and verified claims go on to the claim gates.
   */
  lemma BearerHeaderVerified(a: Attempt)
    requires Clears(MissingHeader, a) && Clears(BadHeaderFormat, a)
    ensures Verified(a).None? ==> Decide(a) == Reject(InvalidToken)
    ensures Verified(a).Some? ==> Decide(a) == CheckClaims(Verified(a).value, a.apiKey)
  {
    BearerTokenNonEmpty(a.header);
  }

  /**
   * The audience gate as the middleware evaluates it, through the library's
   * audience list, agrees with the reading of the raw `aud` claim.
   */
  lemma AudienceGateAgrees(claims: Claims, apiKey: string)
    ensures var aud := GetAudience(claims);
      !(aud.None? || |aud.value| == 0 || aud.value[0] != apiKey) <==> AudienceIs(claims, apiKey)
  {
  }

  /** The middleware's host comparison is exactly the shop binding SameShop. */
  lemma HostsMatchIsSameShop(issuer: string, destination: string)
    ensures HostsMatch(issuer, destination) <==> SameShop(issuer, destination)
  {
  }

  /** Claims whose audience is not the app's API key are rejected at the audience gate. */
  lemma WrongAudienceRejected(c: Claims, k: string)
    requires !ClaimsClear(InvalidAudience, c, k)
    ensures CheckClaims(c, k) == Reject(InvalidAudience)
  {
    AudienceGateAgrees(c, k);
  }

  /** Past the audience gate, a missing, non-string or empty issuer is rejected. */
  lemma NoIssuerRejected(c: Claims, k: string)
    requires ClaimsClear(InvalidAudience, c, k) && !ClaimsClear(MissingIssuer, c, k)
    ensures CheckClaims(c, k) == Reject(MissingIssuer)
  {
    AudienceGateAgrees(c, k);
  }

  /** Past the issuer gate, claims without `dest` are rejected. */
  lemma NoDestinationRejected(c: Claims, k: string)
    requires ClaimsClear(InvalidAudience, c, k) && ClaimsClear(MissingIssuer, c, k)
    requires !ClaimsClear(MissingDestination, c, k)
    ensures CheckClaims(c, k) == Reject(MissingDestination)
  {
    AudienceGateAgrees(c, k);
  }

  /** Past the destination-presence gate, a non-string or blank `dest` is rejected. */
  lemma BadDestinationRejected(c: Claims, k: string)
    requires ClaimsClear(InvalidAudience, c, k) && ClaimsClear(MissingIssuer, c, k)
    requires ClaimsClear(MissingDestination, c, k) && !ClaimsClear(InvalidDestination, c, k)
    ensures CheckClaims(c, k) == Reject(InvalidDestination)
  {
    AudienceGateAgrees(c, k);
    if c["dest"].Str? {
      TrimSpaceBlank(c["dest"].text);
    }
  }

  /** Claims that pass the first four claim gates reach the host comparison. */
  lemma ClaimsReachHostGate(c: Claims, k: string)
    requires ClaimsClear(InvalidAudience, c, k) && ClaimsClear(MissingIssuer, c, k)
    requires ClaimsClear(MissingDestination, c, k) && ClaimsClear(InvalidDestination, c, k)
    ensures CheckClaims(c, k)
      == if HostsMatch(TextClaim(c, "iss"), TextClaim(c, "dest")) then Accept(c) else Reject(HostMismatch)
  {
    AudienceGateAgrees(c, k);
    TrimSpaceBlank(c["dest"].text);
  }

  /** Past the first four claim gates, the shop binding decides. */
  lemma HostGateDecides(c: Claims, k: string)
    requires ClaimsClear(InvalidAudience, c, k) && ClaimsClear(MissingIssuer, c, k)
    requires ClaimsClear(MissingDestination, c, k) && ClaimsClear(InvalidDestination, c, k)
    ensures ClaimFailure(c, k) == if SameShop(TextClaim(c, "iss"), TextClaim(c, "dest")) then None else Some(HostMismatch)
    ensures CheckClaims(c, k) == if SameShop(TextClaim(c, "iss"), TextClaim(c, "dest")) then Accept(c) else Reject(HostMismatch)
  {
    ClaimsReachHostGate(c, k);
    HostsMatchIsSameShop(TextClaim(c, "iss"), TextClaim(c, "dest"));
  }

  /**
   * CheckClaims rejects with the first claim gate the raw claims do not
   * clear, and accepts the claims unchanged when they clear all five.
   */
  lemma CheckClaimsIsFirstFailure(c: Claims, k: string)
    ensures CheckClaims(c, k)
      == if ClaimFailure(c, k).Some? then Reject(ClaimFailure(c, k).value) else Accept(c)
  {
    if !ClaimsClear(InvalidAudience, c, k) {
      WrongAudienceRejected(c, k);
    } else if !ClaimsClear(MissingIssuer, c, k) {
      NoIssuerRejected(c, k);
    } else if !ClaimsClear(MissingDestination, c, k) {
      NoDestinationRejected(c, k);
    } else if !ClaimsClear(InvalidDestination, c, k) {
      BadDestinationRejected(c, k);
    } else {
      HostGateDecides(c, k);
    }
  }

  /**
   * The gate theorem: the middleware rejects with the first gate, in
   * evaluation order, that the attempt does not clear, and otherwise accepts
   * the claims the verifier returned for the token.
   */
  lemma AuthenticateIsFirstFailure(a: Attempt)
    ensures Decide(a)
      == if FirstFailure(a).Some? then Reject(FirstFailure(a).value) else Accept(VerifiedClaims(a))
  {
    if !Clears(MissingHeader, a) {
      BlankHeaderRejected(a);
    } else if !Clears(BadHeaderFormat, a) {
      NonBearerHeaderRejected(a);
    } else {
      BearerTokenNonEmpty(a.header);
      BearerHeaderVerified(a);
      if Verified(a).Some? {
        CheckClaimsIsFirstFailure(Verified(a).value, a.apiKey);
      }
    }
  }

  /** The "missing bearer token" branch of the middleware is dead. */
  lemma MissingBearerTokenUnreachable(a: Attempt)
    ensures Decide(a) != Reject(MissingBearerToken)
  {
    AuthenticateIsFirstFailure(a);
    if Clears(BadHeaderFormat, a) {
      BearerTokenNonEmpty(a.header);
    }
  }

  /**
   * The middleware accepts exactly the attempts that clear every gate, and
   * what it accepts are the claims the verifier returned for the token.
   */
  lemma AcceptsExactlyWhenAllGatesClear(a: Attempt)
    ensures Decide(a).Accept? <==> ClearsAll(a)
    ensures Decide(a).Accept? ==> Verified(a) == Some(Decide(a).claims)
  {
    AuthenticateIsFirstFailure(a);
  }

  // ---------------------------------------------------------------------------
  // Shopify session tokens
  // ---------------------------------------------------------------------------

  /** The token is recovered from "Bearer <token>" with any white space around the header. */
  lemma BearerTokenOfPadded(a: string, token: string, b: string)
    requires AllSpace(a) && AllSpace(b)
    requires token != "" && Trimmed(token)
    ensures HasPrefix(TrimSpace(a + BearerPrefix + token + b), BearerPrefix)
    ensures BearerToken(a + BearerPrefix + token + b) == token
  {
    var m := BearerPrefix + token;
    assert m[|m| - 1] == token[|token| - 1];
    assert a + BearerPrefix + token + b == a + m + b;
    TrimSpaceOfPadded(a, m, b);
    assert [] + token + [] == token;
    TrimSpaceOfPadded([], token, []);
  }

  /**
   * Claims shaped like a Shopify session token: the API key as audience,
   * an issuer URL "https://<shop>/<path>" and a destination URL
   * "https://<shop>", with the same plain shop host in both.
   */
  predicate ShopTokenClaims(c: Claims, apiKey: string, issuer: string, destination: string) {
    && "aud" in c && c["aud"] == Str(apiKey)
    && "iss" in c && c["iss"] == Str(issuer)
    && "dest" in c && c["dest"] == Str(destination)
  }

  /** Session-token URLs naming one plain shop host satisfy the shop binding. */
  lemma SameShopOf(h: string, path: string, tail: string)
    requires ValidHost(h)
    requires path == [] || path[0] == '/'
    requires tail == "" || tail == "/"
    ensures SameShop(HttpsScheme + h + path, HttpsScheme + h + tail)
  {
    HostFromIssuerOf(HttpsScheme, h, path);
    ExtractShopDomainOf(HttpsScheme, h, tail);
    LowerValidHost(h);
  }

  /** Session-token URLs naming two shop hosts that differ beyond letter case fail the shop binding. */
  lemma NotSameShopOf(h1: string, path: string, h2: string, tail: string)
    requires ValidHost(h1) && ValidHost(h2) && ToLower(h1) != ToLower(h2)
    requires path == [] || path[0] == '/'
    requires tail == "" || tail == "/"
    ensures !SameShop(HttpsScheme + h1 + path, HttpsScheme + h2 + tail)
  {
    HostFromIssuerOf(HttpsScheme, h1, path);
    ExtractShopDomainOf(HttpsScheme, h2, tail);
  }

  /** Session-token claims pass the first four claim gates. */
  lemma ShopTokenReachesHostGate(c: Claims, apiKey: string, issuer: string, destination: string)
    requires ShopTokenClaims(c, apiKey, issuer, destination)
    requires issuer != "" && destination != "" && !IsSpace(destination[0])
    ensures ClaimsClear(InvalidAudience, c, apiKey) && ClaimsClear(MissingIssuer, c, apiKey)
    ensures ClaimsClear(MissingDestination, c, apiKey) && ClaimsClear(InvalidDestination, c, apiKey)
    ensures TextClaim(c, "iss") == issuer && TextClaim(c, "dest") == destination
  {
  }

  /** Session-token claims for one plain shop host clear every claim gate. */
  lemma ShopTokenClaimsClear(c: Claims, apiKey: string, h: string, path: string, tail: string)
    requires ValidHost(h)
    requires path == [] || path[0] == '/'
    requires tail == "" || tail == "/"
    requires ShopTokenClaims(c, apiKey, HttpsScheme + h + path, HttpsScheme + h + tail)
    ensures ClaimFailure(c, apiKey) == None
    ensures CheckClaims(c, apiKey) == Accept(c)
  {
    var iss, dest := HttpsScheme + h + path, HttpsScheme + h + tail;
    assert dest[0] == 'h';
    ShopTokenReachesHostGate(c, apiKey, iss, dest);
    SameShopOf(h, path, tail);
    HostGateDecides(c, apiKey);
  }

  /**
   * The accepted path end to end: a "Bearer <token>" header whose token the
   * verifier accepts with session-token claims for one shop host is
   * accepted, with exactly those claims.
   */
  lemma AcceptsShopToken(a: Attempt, token: string, c: Claims, h: string, path: string, tail: string)
    requires a.header == BearerPrefix + token && token != "" && Trimmed(token)
    requires a.verify(token, a.apiSecret) == Some(c)
    requires ValidHost(h)
    requires path == [] || path[0] == '/'
    requires tail == "" || tail == "/"
    requires ShopTokenClaims(c, a.apiKey, HttpsScheme + h + path, HttpsScheme + h + tail)
    ensures Decide(a) == Accept(c)
  {
    assert [] + BearerPrefix + token + [] == a.header;
    BearerTokenOfPadded([], token, []);
    BearerHeaderVerified(a);
    ShopTokenClaimsClear(c, a.apiKey, h, path, tail);
  }

  /**
   * Tenant isolation: claims whose issuer and destination name two different
   * shops are rejected at the host comparison, however valid the rest.
   */
  lemma RejectsCrossShop(c: Claims, apiKey: string, h1: string, path: string, h2: string, tail: string)
    requires ValidHost(h1) && ValidHost(h2) && ToLower(h1) != ToLower(h2)
    requires path == [] || path[0] == '/'
    requires tail == "" || tail == "/"
    requires ShopTokenClaims(c, apiKey, HttpsScheme + h1 + path, HttpsScheme + h2 + tail)
    ensures CheckClaims(c, apiKey) == Reject(HostMismatch)
  {
    var iss, dest := HttpsScheme + h1 + path, HttpsScheme + h2 + tail;
    assert dest[0] == 'h';
    ShopTokenReachesHostGate(c, apiKey, iss, dest);
    NotSameShopOf(h1, path, h2, tail);
    HostGateDecides(c, apiKey);
  }

  /**
   * An issuer and a destination that both spell the scheme "HTTPS://" are
   * rejected, although they name the same shop: the issuer's scheme is
   * stripped after lower-casing, the destination's is not stripped at all.
   */
  lemma RejectsUpperCaseScheme(c: Claims, apiKey: string, h: string)
    requires ValidHost(h)
    requires ShopTokenClaims(c, apiKey, "HTTPS://" + h, "HTTPS://" + h)
    ensures CheckClaims(c, apiKey) == Reject(HostMismatch)
  {
    var url := "HTTPS://" + h;
    assert url[0] == 'H';
    ShopTokenReachesHostGate(c, apiKey, url, url);
    UpperSchemeKeptInDestination(h);
    assert |HttpsScheme + ToLower(h)| != |ToLower(h)|;
    HostGateDecides(c, apiKey);
  }
}

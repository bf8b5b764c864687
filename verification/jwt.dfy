/**
 * The surface of the JWT library the session middleware uses (RFC 7519):
 * decoded claim values, the claim map, and the two typed getters for the
 * registered claims `aud` (section 4.1.3) and `iss` (section 4.1.1).
 * Signature checking (HS256, section 3.2 of RFC 7518) and the time checks
 * are not modelled; they are the `Verifier` a caller passes in.
 */
module Jwt {
  import opened Wrappers

  /**
   * A decoded claim value: a string, a number, an array whose elements are
   * all strings, an array holding some non-string element, or any other JSON
   * value (an object, a boolean, null).
   */
  datatype ClaimValue = Str(text: string) | Num(number: int) | StrList(items: seq<string>) | MixedList | Other

  /** The token payload: claim name to decoded value. */
  type Claims = map<string, ClaimValue>

  /**
   * Parsing and validating a compact token with a signing secret: the claims
   * when the signature, algorithm and time bounds all check out, None
   * otherwise.
   */
  type Verifier = (string, string) -> Option<Claims>

  /**
   * The audience list. A string is a one-element list and an array of
   * strings is itself; an array holding a non-string element is an error;
   * a missing `aud`, or one of any other type, is the empty list.
   */
  function GetAudience(claims: Claims): (r: Option<seq<string>>)
    ensures r.None? <==> "aud" in claims && claims["aud"].MixedList?
    ensures "aud" in claims && claims["aud"].Str? ==> r == Some([claims["aud"].text])
    ensures "aud" in claims && claims["aud"].StrList? ==> r == Some(claims["aud"].items)
    ensures r.Some? && r.value != [] ==>
      "aud" in claims && (claims["aud"] == StrList(r.value) || claims["aud"] == Str(r.value[0]))
  {
    if "aud" !in claims then Some([])
    else match claims["aud"]
      case Str(s) => Some([s])
      case StrList(l) => Some(l)
      case MixedList => None
      case _ => Some([])
  }

  /**
   * The issuer. A missing `iss` yields "" without error; a value that is not
   * a string fails.
   */
  function GetIssuer(claims: Claims): (r: Option<string>)
    ensures "iss" !in claims ==> r == Some("")
    ensures "iss" in claims && claims["iss"].Str? ==> r == Some(claims["iss"].text)
    ensures r.Some? && r.value != "" ==> "iss" in claims && claims["iss"] == Str(r.value)
    ensures r.None? <==> "iss" in claims && !claims["iss"].Str?
  {
    if "iss" !in claims then Some("")
    else match claims["iss"]
      case Str(s) => Some(s)
      case _ => None
  }
}

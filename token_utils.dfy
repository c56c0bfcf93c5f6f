/**
 * Client-side JWT helpers (lib/token-utils.ts): decode the payload without verifying the signature, decide
 * whether a token is expired or about to expire, and read its expiry in milliseconds.
 * `atob` and `JSON.parse` are parameters; either may reject its input (`None`), which the decoder's
 * `try`/`catch` turns into "no payload". The clock is the parameter `now` (milliseconds).
 */
module TokenUtils {
  import opened Base
  import opened Strings
  import opened JsonValues

  /** The default `bufferSeconds` of `isTokenExpired`. */
  const DefaultBufferSeconds := 60

  /** `payload.replace(/-/g, '+').replace(/_/g, '/')`: the base64url alphabet mapped onto plain base64. */
  function FromBase64Url(p: string): (r: string)
    ensures |r| == |p|
    ensures '-' !in r && '_' !in r
    ensures forall i :: 0 <= i < |p| ==>
      r[i] == (if p[i] == '-' then '+' else if p[i] == '_' then '/' else p[i])
  {
    ReplaceAllChar(ReplaceAllChar(p, '-', '+'), '_', '/')
  }

  /** `decodeJWT`: the parsed middle segment of a three-segment token, or `None`. */
  function DecodeJwt(token: string, atob: string -> Option<string>, parse: string -> Option<Json>): (r: Option<Json>)
    ensures |Split(token, '.')| != 3 ==> r.None?
    ensures r.Some? ==> exists text :: atob(FromBase64Url(Split(token, '.')[1])) == Some(text) && parse(text) == r
    ensures |Split(token, '.')| == 3 && atob(FromBase64Url(Split(token, '.')[1])).None? ==> r.None?
    ensures |Split(token, '.')| == 3 && atob(FromBase64Url(Split(token, '.')[1])).Some? ==>
      r == parse(atob(FromBase64Url(Split(token, '.')[1])).value)
  {
    var parts := Split(token, '.');
    if |parts| != 3 then None
    else
      match atob(FromBase64Url(parts[1]))
      case None => None
      case Some(text) => parse(text)
  }

  /**
   * The claim both `isTokenExpired` and `getTokenExpiration` go on: the `exp` field of a decoded payload,
   * when the token is non-empty, decodes to a truthy value, and that value has a truthy `exp`.
   */
  function ExpClaim(token: Option<string>, atob: string -> Option<string>, parse: string -> Option<Json>): (r: Option<Json>)
    ensures r.Some? ==> Truthy(r.value)
    ensures (token.None? || token.value == "") ==> r.None?
  {
    if token.None? || token.value == "" then None
    else
      match DecodeJwt(token.value, atob, parse)
      case None => None
      case Some(decoded) =>
        if !Truthy(decoded) then None
        else if TruthyOpt(Get(decoded, "exp")) then Get(decoded, "exp")
        else None
  }

  /**
   * `isTokenExpired(token, bufferSeconds)`: expired when there is no usable `exp` claim, otherwise when
   * `now + bufferSeconds * 1000 >= exp * 1000`.
   */
  function IsTokenExpired(token: Option<string>, now: int, atob: string -> Option<string>,
                           parse: string -> Option<Json>, bufferSeconds: int := DefaultBufferSeconds): (expired: bool)
    ensures ExpClaim(token, atob, parse).None? ==> expired
    ensures ExpClaim(token, atob, parse).Some? && ToNumber(ExpClaim(token, atob, parse).value).NaN? ==> !expired
    ensures ExpClaim(token, atob, parse).Some? && ToNumber(ExpClaim(token, atob, parse).value).Finite? ==>
      (expired <==> now + bufferSeconds * 1000 >= ToNumber(ExpClaim(token, atob, parse).value).v * 1000)
  {
    match ExpClaim(token, atob, parse)
    case None => true
    case Some(exp) => AtLeast(Finite(now + bufferSeconds * 1000), ToNumber(exp).Times(1000))
  }

  /** `getTokenExpiration(token)`: `exp * 1000`, or `None` when there is no usable `exp` claim. */
  function GetTokenExpiration(token: Option<string>, atob: string -> Option<string>,
                              parse: string -> Option<Json>): (r: Option<JsNumber>)
    ensures r.None? <==> ExpClaim(token, atob, parse).None?
  {
    match ExpClaim(token, atob, parse)
    case None => None
    case Some(exp) => Some(ToNumber(exp).Times(1000))
  }

  /**
   * The two functions agree: a token is expired exactly when it has no expiry, or its expiry is a number at most
   * the buffered current time. A NaN expiry never counts as expired.
   */
  lemma ExpiredIffByExpiration(token: Option<string>, now: int, atob: string -> Option<string>,
                               parse: string -> Option<Json>, bufferSeconds: int)
    ensures IsTokenExpired(token, now, atob, parse, bufferSeconds) <==>
      match GetTokenExpiration(token, atob, parse)
      case None => true
      case Some(NaN) => false
      case Some(Finite(ms)) => now + bufferSeconds * 1000 >= ms
  {
  }

  /** Missing and empty tokens, and tokens that do not have three segments, are expired for every buffer. */
  lemma UnusableTokensExpired(token: Option<string>, now: int, atob: string -> Option<string>,
                              parse: string -> Option<Json>, bufferSeconds: int)
    requires token.None? || token.value == "" || |Split(token.value, '.')| != 3
    ensures IsTokenExpired(token, now, atob, parse, bufferSeconds)
    ensures GetTokenExpiration(token, atob, parse).None?
  {
  }

  /** A larger buffer never turns an expired token back into a live one. */
  lemma ExpiryMonotoneInBuffer(token: Option<string>, now: int, atob: string -> Option<string>,
                               parse: string -> Option<Json>, b1: int, b2: int)
    requires b1 <= b2
    requires IsTokenExpired(token, now, atob, parse, b1)
    ensures IsTokenExpired(token, now, atob, parse, b2)
  {
  }

  /** For a numeric claim the test is exact: the token is expired at the very millisecond `now + buffer` reaches it. */
  lemma NumericExpiry(token: string, now: int, atob: string -> Option<string>, parse: string -> Option<Json>,
                      bufferSeconds: int, fields: map<string, Json>, exp: int)
    requires DecodeJwt(token, atob, parse) == Some(JObj(fields))
    requires "exp" in fields && fields["exp"] == JNum(exp) && exp != 0
    ensures IsTokenExpired(Some(token), now, atob, parse, bufferSeconds) <==> now + bufferSeconds * 1000 >= exp * 1000
    ensures GetTokenExpiration(Some(token), atob, parse) == Some(Finite(exp * 1000))
  {
  }

  /**
   * A truthy `exp` claim that is not a number, such as an object, converts to NaN, and every comparison with NaN is
   * false: such a token is never reported as expired, whatever the clock says.
   */
  lemma NonNumericExpiryNeverExpires(token: string, now: int, atob: string -> Option<string>,
                                     parse: string -> Option<Json>, bufferSeconds: int,
                                     fields: map<string, Json>, claim: map<string, Json>)
    requires DecodeJwt(token, atob, parse) == Some(JObj(fields))
    requires "exp" in fields && fields["exp"] == JObj(claim)
    ensures !IsTokenExpired(Some(token), now, atob, parse, bufferSeconds)
    ensures GetTokenExpiration(Some(token), atob, parse) == Some(NaN)
  {
    ObjectIsNaN(claim);
    assert token != "" by { assert |Split("", '.')| == 1; }
  }
}

/**
 * Token utilities of the backend (backend/src/utils/jwt.js): issuing and
 * verifying access and refresh tokens, reading a Bearer token out of an
 * Authorization header, decoding an expiry without verification, and the
 * cookie policies the tokens travel under.
 */
module Jwt {
  import opened Wrappers
  import opened Text
  import opened TokenCodec

  /** `JWT_SECRET` when the environment does not set one. */
  const DEFAULT_JWT_SECRET := "your-super-secret-jwt-key-change-in-production"
  /** `JWT_EXPIRE` and `JWT_REFRESH_EXPIRE` as configured by default ... */
  const JWT_EXPIRE := "15m"
  const JWT_REFRESH_EXPIRE := "7d"
  /** ... and the lifetimes, in seconds, that `jsonwebtoken` reads from them. */
  const ACCESS_TOKEN_SECONDS: nat := 15 * 60
  const REFRESH_TOKEN_SECONDS: nat := 7 * 24 * 60 * 60

  const ISSUER := "portfolio-admin"
  const AUDIENCE := "portfolio-app"

  /** The one message each verifier raises, whatever the library reported. */
  const ACCESS_VERIFY_ERROR := "Invalid or expired access token"
  const REFRESH_VERIFY_ERROR := "Invalid or expired refresh token"

  /** The refresh-token key is derived from, and always differs from, the access-token key. */
  function RefreshSecret(secret: string): (k: string)
    ensures k != secret && |k| > |secret|
  {
    secret + "-refresh"
  }

  /** `jwt.sign(payload, key, { expiresIn, issuer, audience })` at time `now` (milliseconds). */
  function Sign(payload: Payload, key: string, lifetime: nat, now: nat): (token: string)
    ensures Decode(token) == Some(Jwt(payload, now / 1000, now / 1000 + lifetime, ISSUER, AUDIENCE, key))
  {
    DecodeEncode(Jwt(payload, now / 1000, now / 1000 + lifetime, ISSUER, AUDIENCE, key));
    Encode(Jwt(payload, now / 1000, now / 1000 + lifetime, ISSUER, AUDIENCE, key))
  }

  /** `generateAccessToken`: verifies under the secret from its issue on, and carries its 15-minute expiry. */
  function GenerateAccessToken(secret: string, payload: Payload, now: nat): (token: string)
    ensures LibraryVerify(token, secret, now) == Success(payload)
    ensures GetTokenExpiration(token) == Some((now / 1000 + ACCESS_TOKEN_SECONDS) * 1000)
  {
    Sign(payload, secret, ACCESS_TOKEN_SECONDS, now)
  }

  /** `generateRefreshToken`: verifies under the refresh key from its issue on, and not under the secret. */
  function GenerateRefreshToken(secret: string, payload: Payload, now: nat): (token: string)
    ensures LibraryVerify(token, RefreshSecret(secret), now) == Success(payload)
    ensures LibraryVerify(token, secret, now).Failure?
    ensures GetTokenExpiration(token) == Some((now / 1000 + REFRESH_TOKEN_SECONDS) * 1000)
  {
    Sign(payload, RefreshSecret(secret), REFRESH_TOKEN_SECONDS, now)
  }

  /** The errors `jsonwebtoken` reports, before the backend replaces them. */
  datatype LibraryError = Malformed | InvalidSignature | Expired | AudienceInvalid | IssuerInvalid

  /**
   * `jwt.verify(token, key, { issuer, audience })`: the signature first, then
   * `exp` against the clock in whole seconds, then `aud`, then `iss`.
   */
  function LibraryVerify(token: string, key: string, now: nat): (r: Result<Payload, LibraryError>)
    ensures r.Success? <==>
      Decode(token).Some? && Decode(token).value.key == key && now / 1000 < Decode(token).value.exp
      && Decode(token).value.aud == AUDIENCE && Decode(token).value.iss == ISSUER
    ensures r.Success? ==> r.value == Decode(token).value.payload
  {
    match Decode(token)
    case None => Failure(Malformed)
    case Some(t) =>
      if t.key != key then Failure(InvalidSignature)
      else if now / 1000 >= t.exp then Failure(Expired)
      else if t.aud != AUDIENCE then Failure(AudienceInvalid)
      else if t.iss != ISSUER then Failure(IssuerInvalid)
      else Success(t.payload)
  }

  /** `verifyAccessToken`: any library failure becomes one generic error message. */
  function VerifyAccessToken(secret: string, token: string, now: nat): (r: Result<Payload, string>)
    ensures r.Failure? ==> r.error == ACCESS_VERIFY_ERROR
    ensures r.Success? <==> LibraryVerify(token, secret, now).Success?
  {
    match LibraryVerify(token, secret, now)
    case Success(p) => Success(p)
    case Failure(_) => Failure(ACCESS_VERIFY_ERROR)
  }

  /** `verifyRefreshToken`: the same checks under the refresh key. */
  function VerifyRefreshToken(secret: string, token: string, now: nat): (r: Result<Payload, string>)
    ensures r.Failure? ==> r.error == REFRESH_VERIFY_ERROR
    ensures r.Success? <==> LibraryVerify(token, RefreshSecret(secret), now).Success?
  {
    match LibraryVerify(token, RefreshSecret(secret), now)
    case Success(p) => Success(p)
    case Failure(_) => Failure(REFRESH_VERIFY_ERROR)
  }

  datatype TokenPair = TokenPair(accessToken: string, refreshToken: string, expiresIn: string)

  /** `generateTokenPair` */
  function GenerateTokenPair(secret: string, payload: Payload, now: nat): (r: TokenPair)
    ensures r.expiresIn == JWT_EXPIRE
  {
    TokenPair(GenerateAccessToken(secret, payload, now), GenerateRefreshToken(secret, payload, now), JWT_EXPIRE)
  }

  const BEARER := "Bearer "

  /**
   * `extractTokenFromHeader`: the credentials after the case-sensitive
   * `Bearer ` prefix (section 2.1 of RFC 6750); nothing for an absent or empty
   * header or any other scheme.
   */
  function ExtractTokenFromHeader(header: Option<string>): (r: Option<string>)
    ensures r.Some? <==> header.Some? && StartsWith(header.value, BEARER)
    ensures r.Some? ==> header.value == BEARER + r.value
  {
    match header
    case None => None
    case Some(h) =>
      if h == [] || !StartsWith(h, BEARER) then None
      else Some(h[|BEARER|..])
  }

  /** `getTokenExpiration`: the unverified `exp`, in milliseconds. */
  function GetTokenExpiration(token: string): (r: Option<nat>)
    ensures r.Some? <==> Decode(token).Some?
    ensures r.Some? ==> r.value == Decode(token).value.exp * 1000
  {
    match Decode(token)
    case None => None
    case Some(t) => Some(t.exp * 1000)
  }

  /** `isTokenExpired`: a missing (or zero) expiration counts as expired. */
  function IsTokenExpired(token: string, now: nat): (expired: bool)
    ensures Decode(token).None? ==> expired
    ensures Decode(token).Some? ==> (expired <==> now >= Decode(token).value.exp * 1000)
  {
    match GetTokenExpiration(token)
    case None => true
    case Some(expiration) => expiration == 0 || now >= expiration
  }

  datatype CookieConfig = CookieConfig(httpOnly: bool, secure: bool, sameSite: string, maxAge: nat, path: string)

  const ACCESS_COOKIE_MAX_AGE: nat := 15 * 60 * 1000
  const REFRESH_COOKIE_MAX_AGE: nat := 7 * 24 * 60 * 60 * 1000

  /** `getCookieConfig`: the access-token cookie. */
  function GetCookieConfig(isProduction: bool): (c: CookieConfig)
    ensures c.httpOnly && c.path == "/"
    ensures c.secure <==> isProduction
    ensures c.sameSite == (if isProduction then "strict" else "lax")
    ensures c.maxAge == ACCESS_TOKEN_SECONDS * 1000
  {
    CookieConfig(true, isProduction, if isProduction then "strict" else "lax", ACCESS_COOKIE_MAX_AGE, "/")
  }

  /** `getRefreshCookieConfig`: the refresh-token cookie, sent only under /api/auth. */
  function GetRefreshCookieConfig(isProduction: bool): (c: CookieConfig)
    ensures c.httpOnly && c.path == "/api/auth"
    ensures c.secure <==> isProduction
    ensures c.sameSite == (if isProduction then "strict" else "lax")
    ensures c.maxAge == REFRESH_TOKEN_SECONDS * 1000
  {
    CookieConfig(true, isProduction, if isProduction then "strict" else "lax", REFRESH_COOKIE_MAX_AGE, "/api/auth")
  }

  /** A token issued at `issuedAt` verifies, giving back its payload, exactly until its lifetime is over. */
  lemma AccessTokenRoundTrip(secret: string, payload: Payload, issuedAt: nat, now: nat)
    ensures VerifyAccessToken(secret, GenerateAccessToken(secret, payload, issuedAt), now)
      == if now / 1000 < issuedAt / 1000 + ACCESS_TOKEN_SECONDS then Success(payload) else Failure(ACCESS_VERIFY_ERROR)
  {
  }

  lemma RefreshTokenRoundTrip(secret: string, payload: Payload, issuedAt: nat, now: nat)
    ensures VerifyRefreshToken(secret, GenerateRefreshToken(secret, payload, issuedAt), now)
      == if now / 1000 < issuedAt / 1000 + REFRESH_TOKEN_SECONDS then Success(payload) else Failure(REFRESH_VERIFY_ERROR)
  {
  }

  /** An access token never passes the refresh verifier, and a refresh token never passes the access verifier. */
  lemma KeysAreSeparate(secret: string, payload: Payload, issuedAt: nat, now: nat)
    ensures VerifyRefreshToken(secret, GenerateAccessToken(secret, payload, issuedAt), now).Failure?
    ensures VerifyAccessToken(secret, GenerateRefreshToken(secret, payload, issuedAt), now).Failure?
  {
  }

  /** A token signed under another secret is refused by the access verifier. */
  lemma ForeignKeyRefused(secret: string, other: string, payload: Payload, issuedAt: nat, now: nat)
    requires other != secret
    ensures VerifyAccessToken(secret, GenerateAccessToken(other, payload, issuedAt), now) == Failure(ACCESS_VERIFY_ERROR)
  {
  }

  /** Both tokens of a pair carry the same payload. */
  lemma TokenPairSharesPayload(secret: string, payload: Payload, now: nat)
    ensures Decode(GenerateTokenPair(secret, payload, now).accessToken).Some?
    ensures Decode(GenerateTokenPair(secret, payload, now).refreshToken).Some?
    ensures Decode(GenerateTokenPair(secret, payload, now).accessToken).value.payload == payload
    ensures Decode(GenerateTokenPair(secret, payload, now).refreshToken).value.payload == payload
  {
  }

  /**
   * Two refresh tokens for one payload issued within the same second are the
   * same string: tokens carry no identifier of their own.
   */
  lemma SameSecondSameToken(secret: string, payload: Payload, t1: nat, t2: nat)
    ensures GenerateRefreshToken(secret, payload, t1) == GenerateRefreshToken(secret, payload, t2) <==> t1 / 1000 == t2 / 1000
  {
    if GenerateRefreshToken(secret, payload, t1) == GenerateRefreshToken(secret, payload, t2) {
      EncodeInjective(Jwt(payload, t1 / 1000, t1 / 1000 + REFRESH_TOKEN_SECONDS, ISSUER, AUDIENCE, RefreshSecret(secret)),
                      Jwt(payload, t2 / 1000, t2 / 1000 + REFRESH_TOKEN_SECONDS, ISSUER, AUDIENCE, RefreshSecret(secret)));
    }
  }

  /** `Bearer ` followed by a token is read back as that token. */
  lemma ExtractBearer(token: string)
    ensures ExtractTokenFromHeader(Some(BEARER + token)) == Some(token)
  {
    assert (BEARER + token)[..|BEARER|] == BEARER;
  }

  lemma SecondsFloor(now: nat, e: nat)
    ensures now / 1000 >= e <==> now >= e * 1000
  {
    if now / 1000 >= e {
      assert now >= (now / 1000) * 1000;
    } else {
      assert now / 1000 <= e - 1;
      assert now < (now / 1000 + 1) * 1000;
    }
  }

  /**
   * `isTokenExpired` holds for a token that does not decode, and otherwise
   * agrees with the verifier's clock check: past `exp` in milliseconds exactly
   * when past it in whole seconds.
   */
  lemma IsTokenExpiredAgreesWithVerify(token: string, now: nat)
    ensures IsTokenExpired(token, now) <==> Decode(token).None? || now / 1000 >= Decode(token).value.exp
  {
    if Decode(token).Some? {
      SecondsFloor(now, Decode(token).value.exp);
    }
  }

  /** For a token the backend issued, "expired" and "no longer verifies" coincide. */
  lemma IssuedTokenExpiry(secret: string, payload: Payload, issuedAt: nat, now: nat)
    ensures IsTokenExpired(GenerateAccessToken(secret, payload, issuedAt), now)
        <==> VerifyAccessToken(secret, GenerateAccessToken(secret, payload, issuedAt), now).Failure?
  {
    var t := Jwt(payload, issuedAt / 1000, issuedAt / 1000 + ACCESS_TOKEN_SECONDS, ISSUER, AUDIENCE, secret);
    DecodeEncode(t);
    IsTokenExpiredAgreesWithVerify(Encode(t), now);
  }

  /** The two cookies differ only in lifetime and path, and each lives as long as its token. */
  lemma CookiePolicies(isProduction: bool)
    ensures GetCookieConfig(isProduction).(maxAge := 0, path := "") == GetRefreshCookieConfig(isProduction).(maxAge := 0, path := "")
    ensures GetCookieConfig(isProduction).maxAge == 900000
    ensures GetRefreshCookieConfig(isProduction).maxAge == 604800000
  {
  }
}

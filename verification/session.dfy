/** Session-cookie issuance (`createJWT`): sign a one-day token for a user and
    attach it to the response as the cookie `token`, with attributes chosen by
    the deployment mode. */
module Session {
  import opened Wrappers
  import opened Environment

  const CookieName: string := "token"

  /** `expiresIn: "1d"`, in seconds. */
  const TokenLifetimeSeconds: nat := 24 * 60 * 60

  /** `maxAge: 1 * 24 * 60 * 60 * 1000`, in milliseconds. */
  const CookieMaxAgeMillis: nat := 1 * 24 * 60 * 60 * 1000

  /** Domain attribute of the production cookie. */
  const ProductionCookieDomain: string := ".hostingersite.com"

  /** Message of the error thrown when signing without a secret. */
  const MissingSecretMessage: string := "secretOrPrivateKey must have a value"

  /** The claims of a signed token: the `{userId}` payload plus the issue and
      expiry times, in whole seconds, that signing adds. The signature itself
      is not modelled. */
  datatype Token = Token(userId: string, issuedAt: nat, expiresAt: nat)

  datatype SameSite = Lax | SameSiteNone

  /** The options object passed to `res.cookie`; `domain == None` leaves the
      cookie host-only. */
  datatype CookieOptions = CookieOptions(
    httpOnly: bool,
    secure: bool,
    sameSite: SameSite,
    maxAge: nat,
    domain: Option<string>)

  datatype Cookie = Cookie(name: string, value: Token, options: CookieOptions)

  /** The cookies set on a response so far, in order. */
  datatype Response = Response(cookies: seq<Cookie>)

  /** `jwt.sign({ userId }, secret, { expiresIn: "1d" })` at wall-clock time
      `nowMillis`: the issue time is the current second and the expiry one day
      later; a missing or empty secret makes signing throw. */
  function Sign(userId: string, secret: Option<string>, nowMillis: nat): (r: Result<Token, string>)
    ensures r.Failure? <==> IsFalsy(secret)
    ensures r.Failure? ==> r.error == MissingSecretMessage
    ensures r.Success? ==> r.value.userId == userId
    ensures r.Success? ==> r.value.expiresAt - r.value.issuedAt == TokenLifetimeSeconds
    ensures r.Success? ==> r.value.issuedAt * 1000 <= nowMillis < (r.value.issuedAt + 1) * 1000
  {
    if IsFalsy(secret) then Failure(MissingSecretMessage)
    else
      var iat := nowMillis / 1000;
      Success(Token(userId, iat, iat + TokenLifetimeSeconds))
  }

  /** The cookie attributes for a mode: always HTTP-only with a one-day
      lifetime; in production secure, cross-site and scoped to the hosting
      domain; otherwise not secure, same-site lax and host-only. */
  function CookieOptionsFor(mode: Mode): (o: CookieOptions)
    ensures o.httpOnly
    ensures o.secure <==> mode == Production
    ensures o.sameSite == SameSiteNone <==> mode == Production
    ensures o.maxAge == TokenLifetimeSeconds * 1000
    ensures o.domain.Some? <==> mode == Production
    ensures o.domain.Some? ==> o.domain.value == ProductionCookieDomain
  {
    if mode == Production then
      CookieOptions(true, true, SameSiteNone, CookieMaxAgeMillis, Some(ProductionCookieDomain))
    else
      CookieOptions(true, false, Lax, CookieMaxAgeMillis, None)
  }

  /** `createJWT(res, userId)`. Signing comes first, so when it throws the
      error propagates and no cookie is set; otherwise exactly one cookie named
      `token` is appended, carrying a token for `userId` and the attributes of
      the mode that `NODE_ENV` selects, and the cookies already on the
      response are kept as they were. */
  function CreateJwt(res: Response, userId: string, env: ProcessEnv, nowMillis: nat): (r: Result<Response, string>)
    ensures r.Failure? <==> IsFalsy(env.jwtSecret)
    ensures r.Failure? ==> r.error == MissingSecretMessage
    ensures r.Success? ==> |r.value.cookies| == |res.cookies| + 1
    ensures r.Success? ==> r.value.cookies[..|res.cookies|] == res.cookies
    ensures r.Success? ==>
      var c := r.value.cookies[|res.cookies|];
      && c.name == CookieName
      && c.value.userId == userId
      && c.value.issuedAt * 1000 <= nowMillis < (c.value.issuedAt + 1) * 1000
      && c.value.expiresAt - c.value.issuedAt == TokenLifetimeSeconds
      && c.options == CookieOptionsFor(ModeOf(env.nodeEnv))
  {
    match Sign(userId, env.jwtSecret, nowMillis)
    case Failure(e) => Failure(e)
    case Success(token) =>
      Success(Response(res.cookies + [Cookie(CookieName, token, CookieOptionsFor(ModeOf(env.nodeEnv)))]))
  }

  /** A cross-site cookie is always a secure one: `sameSite` none implies
      `secure`, in every mode. */
  lemma SameSiteNoneImpliesSecure(mode: Mode)
    ensures CookieOptionsFor(mode).sameSite == SameSiteNone ==> CookieOptionsFor(mode).secure
  {
  }

  /** The cookie's `maxAge` and the token's lifetime are the same day: the
      token's expiry, in milliseconds, falls within the second before the
      instant `maxAge` after signing. */
  lemma TokenAndCookieExpireTogether(userId: string, secret: Option<string>, nowMillis: nat, mode: Mode)
    requires !IsFalsy(secret)
    ensures Sign(userId, secret, nowMillis).Success?
    ensures var t := Sign(userId, secret, nowMillis).value;
      && (t.expiresAt - t.issuedAt) * 1000 == CookieOptionsFor(mode).maxAge
      && nowMillis + CookieOptionsFor(mode).maxAge - 1000 < t.expiresAt * 1000 <= nowMillis + CookieOptionsFor(mode).maxAge
  {
  }

  /** The cookie set does not depend on cookies already on the response. */
  lemma IssuedCookieIgnoresExistingCookies(res1: Response, res2: Response, userId: string, env: ProcessEnv, nowMillis: nat)
    requires !IsFalsy(env.jwtSecret)
    ensures CreateJwt(res1, userId, env, nowMillis).Success?
    ensures CreateJwt(res2, userId, env, nowMillis).Success?
    ensures CreateJwt(res1, userId, env, nowMillis).value.cookies[|res1.cookies|]
         == CreateJwt(res2, userId, env, nowMillis).value.cookies[|res2.cookies|]
  {
  }
}

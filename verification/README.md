# Access-control gate of the API server

This project models the two pieces of the server that decide who may talk to
it with credentials and what credential it hands out:

- the **origin gate**: the `origin` callback given to the `cors` middleware,
  with its constant `credentials` and `methods` options (`index.js`). For a
  request origin (possibly missing) and the value of `NODE_ENV`, it calls back
  once, either allowing the origin or failing with the error
  "Not allowed by CORS";
- **session-cookie issuance** (`createJWT`, `utils/index.js`). It signs a token
  for `{ userId }` that expires after one day, then sets a single cookie named
  `token`. The cookie's attributes depend only on the deployment mode.

Modules:

- `Wrappers`: `Option` (JavaScript `undefined`) and `Result` (a call that may
  throw).
- `Environment`: the deployment `Mode`, how `NODE_ENV` selects it
  (`ModeOf`), and JavaScript falsiness of an optional string (`IsFalsy`).
- `CorsPolicy`: the decision `Decide` (the source's tests in the source's
  order), a reference predicate `Admits` stating the allowed origins as a set,
  the statement-by-statement `OriginCallback` that records every `callback`
  invocation, and the constant options.
- `Session`: the abstract token (`userId`, issue and expiry times), `Sign`,
  the mode-indexed `CookieOptionsFor`, and `CreateJwt` acting on a response's
  list of cookies.
- `Hosts`: the host of a serialized origin and the domain-match rule of
  section 5.1.3 of RFC 6265. The cross-module facts need these.
- `Deployment`: lemmas that tie the allowed origins to the cookie's domain
  scope.

Inputs that come from the environment are explicit parameters. `NODE_ENV` and
`JWT_SECRET` are `Option<string>` fields of `ProcessEnv`. The request origin is
an `Option<string>`. The wall clock is `nowMillis`. The response is the list of
cookies set on it so far.

Behaviour of the code worth calling out:

- The gate admits a **falsy** origin in production (`!origin`). That covers
  both a missing origin and the empty string, not only a missing one.
- The production origin and the local origins are literals in the code.
- Any `NODE_ENV` other than exactly `"production"` selects development, which
  admits every origin. The gate fails open.
- No startup check for the signing secret exists. A missing or empty secret
  only shows up when `createJWT` is called: `jwt.sign` throws before any cookie
  is set.
- The comment on the falsy-origin branch (index.js:39) names the Android
  WebView's "null origin". A WebView that sends the header `Origin: null`
  passes the four-character string `"null"`, which is truthy, so production
  rejects it (`CorsPolicy.ProductionRejectsLiteralNullOrigin`). Only a missing
  or empty origin reaches that branch.

## Model

| member | source | states |
|---|---|---|
| `Environment.ModeOf` | index.js:32 | Production holds exactly when `NODE_ENV` is the string `"production"`; unset means development |
| `Environment.ModeDetectionFailsOpen` | index.js:32 | every other `NODE_ENV` value, including case and spelling near misses, selects development |
| `CorsPolicy.Decide` | index.js:24-51 | the ordered chain of tests allows an origin exactly when the order-free description `Admits` does; a rejection happens only in production and always carries "Not allowed by CORS" |
| `CorsPolicy.Report` | index.js:26-50 | an allow is reported as `callback(null, true)` with no error, and a reject as a callback carrying the decision's error message and no allow flag |
| `CorsPolicy.OriginCallback` | index.js:24-51 | the callback body invokes `callback` exactly once, and with the decision `Decide` takes for the mode `NODE_ENV` selects |
| `CorsPolicy.LocalOriginsAlwaysAllowed` | index.js:26-29 | both localhost origins are allowed in every mode |
| `CorsPolicy.ProductionAdmitsExactlyTheAllowList` | index.js:26-46 | in production a non-empty origin is allowed if and only if it is one of the three literals; all others get the CORS error |
| `CorsPolicy.ProductionAdmitsFalsyOrigin` | index.js:39-43 | in production a missing or empty origin is allowed |
| `CorsPolicy.NonProductionAdmitsEverything` | index.js:32-50 | when `NODE_ENV` is not exactly `"production"`, every origin, missing included, is allowed |
| `CorsPolicy.ProductionRejectsNearMisses` | index.js:26-46 | matching is exact: a trailing slash, another scheme, another port, other letter case or another loopback spelling is rejected in production |
| `CorsPolicy.ProductionIsStricter` | index.js:24-51 | what production allows, development allows too, and some origin is allowed only in development |
| `CorsPolicy.ProductionRejectsLiteralNullOrigin` | index.js:39-45 | in production the string `"null"` is not falsy, so it is rejected with the CORS error, while a missing or empty origin is allowed |
| `CorsPolicy.AbsentAndEmptyOriginAgree` | index.js:40 | a missing origin and an empty one get the same decision in every mode |
| `CorsPolicy.OptionsAreFixed` | index.js:52-53 | credentials are always on, and the methods are exactly GET, POST, PUT, DELETE, OPTIONS, without repeats |
| `Session.Sign` | utils/index.js:4-6 | the token carries exactly the given `userId` and expires one day after the second it was issued in; a falsy secret makes signing fail |
| `Session.CookieOptionsFor` | utils/index.js:8-14 | always `httpOnly`; `secure` iff production; `sameSite` none iff production (lax otherwise); `maxAge` is the token lifetime in ms; a domain iff production, and then `.hostingersite.com` |
| `Session.CreateJwt` | utils/index.js:3-15 | it fails with the signing error, setting nothing, exactly when the secret is falsy; otherwise it appends exactly one cookie named `token`, keeps the existing cookies, and the new cookie holds the user's token, issued in the second of the call and expiring one day later, with the mode's attributes |
| `Session.SameSiteNoneImpliesSecure` | utils/index.js:10-11 | a `sameSite` none cookie is always a secure one |
| `Session.TokenAndCookieExpireTogether` | utils/index.js:4-12 | the cookie's `maxAge` equals the token lifetime, and the token expires within the last second before signing time plus `maxAge` |
| `Session.IssuedCookieIgnoresExistingCookies` | utils/index.js:8 | the cookie set does not depend on the cookies already on the response |
| `Deployment.ProductionOriginHost` | index.js:34 | the host of the production origin is `tan-aardvark-644850.hostingersite.com` |
| `Deployment.LocalOriginHost` | index.js:26 | the host of both localhost origins is `localhost` |
| `Deployment.ProductionCookieCoversProductionOrigin` | utils/index.js:13 | the production origin (index.js:34) is allowed in production, and the production cookie domain `.hostingersite.com` is a suffix of its host and domain-matches it |
| `Deployment.LocalOriginsOutsideProductionCookieDomain` | utils/index.js:11-13 | the localhost origins, allowed in production, do not domain-match the production cookie domain; the production cookie is `SameSite=None` and secure, and the development cookie is host-only |

## Left out

- Express app construction, body parsers, `cookie-parser`, route mounting and the error middleware (index.js:19-20, 56-70): framework plumbing. The route and middleware modules are not part of this model.
- How the `cors` package turns the callback's result into response headers, and its preflight handling (index.js:56-57). That package is not part of this model, so the callback's allow or reject is the observable output.
- The MongoDB connection, `app.listen` and the `PORT` default (index.js:20, 73-81): I/O and the asynchronous lifecycle.
- dotenv loading and the ESM `__dirname` setup (index.js:13-17): environment I/O. The environment is the explicit `ProcessEnv` parameter instead.
- Session.Sign: does not model the signature, header, base64url encoding or algorithm of `jsonwebtoken`. The token is abstracted to its claims. The only failure modelled is the library's refusal of a falsy secret.
- Session.CreateJwt: does not model how Express serializes the cookie (`Max-Age` in seconds, `Expires`, the token's text). The cookie is kept as its name, token and options object.
- Hosts.HostOf: handles origins of the form `scheme://host[:port][/path]` only. Userinfo and bracketed IPv6 hosts are not parsed, and no such origin occurs in the code.
- Hosts.DomainMatches: omits RFC 6265's case folding and its exclusion of IP-address hosts. Every host compared here is a lower-case name.
- Token verification and a startup check for the signing secret: neither exists in the code.

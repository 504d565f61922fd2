# express-credential: the credential lifecycle in Dafny

This project models the core of a small Express authentication library. It covers how
an application payload is bound to a carrier on `req.login(user)`, how that carrier is
read back and validated on every request, and how `req.logout()` clears it. There are
two carriers:

- a **session strategy**, which keeps the payload in the request's session map;
- a **JWT strategy**, which signs the payload into a JWS compact token (section 7.1 of
  RFC 7515). The token is presented back as `Authentication: Bearer <token>`.

The repository holds two variants of the library, and each has its own module:

- `IndexTs` models the current TypeScript source, `index.ts`:
  - the session strategy stores the raw payload with no timestamp;
  - the token strategy checks its secret and ttl when it is constructed;
  - it consults an optional revocation oracle (`isTokenRevoked`);
  - it records revocations on logout (`revokeToken`).
- `IndexJs` models the older compiled build, `index.js`:
  - the session strategy stores `{payload, createdAt}` with an expiry, and erases a
    stale or malformed entry when it reads it;
  - the token strategy has an expiry and no revocation;
  - `logout()` is `login()` with no user.

Shared modules:

- `JsValue` holds the JavaScript values that flow through the library. Truthiness,
  property access, `|| undefined` and JSON-safety are written out explicitly.
- `Platform` holds the foreign calls as function-valued parameters (`Host`): base64url,
  the signing algorithms, `JSON.stringify`/`JSON.parse`, `Date.parse` and
  `toISOString`. It also holds the laws the library relies on:
  - `Sound`: the encodings invert, and dates round-trip through ISO strings;
  - `Unforgeable`: signatures are collision resistant, except under the unsecured
    algorithm "none".
- `Jws` covers the compact serialization: splitting and joining on '.', signing,
  `jws.verify`, `jws.decode`, and the token check both variants run before trusting a
  body. That check is verify, then decode, then compare the header `alg`, then parse
  the JSON.
- `Http` covers the slice of an Express request the middleware touches, the `Bearer `
  prefix rule, and identity resolution.

Time is a parameter `now`, in milliseconds. Each operation reads the clock once.

Points of the code that the model states as written:

- Neither variant reads a cookie, and neither puts an expiry instant in the token header.
- In `index.ts`, `revokeToken` receives the payload (`index.ts:125`), while
  `isTokenRevoked` receives the token (`index.ts:94`).
- Only `index.ts` checks the secret and the ttl at construction (`index.ts:76-77`).
  `index.js` takes any secret and defaults the expiry (`index.js:124`).
- `index.js` erases a stale session entry by setting the key to `undefined`
  (`index.js:118`); the key stays in the map.
- Freshness is inclusive in both variants (`createdAt >= now - ttl`), while `index.ts`
  revokes only when `createdAt + ttl > now` (`index.ts:125`). So at exactly
  `now == createdAt + ttl` a token is still accepted, yet logging out records no
  revocation. `IndexTs.AcceptedButNotRevokedAtExpiry` states this.
- The comment at `index.js:144` holds that the header `alg` test always passes after a
  positive verification. That holds only for tokens `jws.sign` made with `header.alg`
  equal to the signing algorithm: a token whose header claims another algorithm can
  verify and still fail this test. `IndexJs.HeaderAlgConfusionRejected` states this.

## Model

| member | source | states |
|---|---|---|
| JsValue.OrUndefined | index.ts:42 | `v \|\| undefined` keeps a truthy value and turns every falsy value into undefined |
| JsValue.Stamp | index.js:105-108 | the `{payload, createdAt}` record is a truthy object whose two properties read back as given |
| JsValue.StampJsonSafe | index.ts:108-111 | the `{payload, createdAt}` body survives JSON when both members do |
| Platform.TimeClip | index.js:114-115 | a time value is a valid instant exactly within 8.64e15 ms of the epoch, otherwise NaN |
| Platform.ToInstant | index.ts:89-91 | `new Date(v).getTime()` is a valid instant or NaN; undefined and objects are NaN; numbers are clipped |
| Platform.IsoRoundTrip | index.js:107 | an ISO creation time is truthy and converts back to the instant it was made from |
| Jws.Split | index.ts:83 | splitting on '.' yields dot-free pieces that join back to the token |
| Jws.SplitJoin | index.ts:83 | splitting undoes joining dot-free segments |
| Jws.SplitCompact | index.ts:106-114 | a signed token splits into exactly its header, body and signature segments |
| Jws.CompactAlphabet | index.ts:106-114 | a signed token consists of base64url characters and dots only |
| Jws.Sign | index.ts:106-114 | a token is the signing input over the header `{alg}` and the payload, a dot, and the signature of that input under the algorithm and secret |
| Jws.Verify | index.ts:83 | a verifying token is three segments whose third is the signature of the first two under the caller's algorithm and secret |
| Jws.Decode | index.ts:84 | `jws.decode` succeeds only on three segments with a truthy JSON header |
| Jws.VerifiedBody | index.ts:83-86 | a body is returned only if the token verifies, decodes, names the configured `alg`, and the body parses to it |
| Jws.CompactVerifiesAndDecodes | index.ts:83-84 | a signed token verifies under its own algorithm and secret and decodes to what was signed |
| Jws.VerifyPinsAlgAndSecret | index.ts:83 | a token verifies iff the algorithm is its own and, unless it is "none", the secret is its own |
| Jws.SignedBodyRecovered | index.ts:106-114 | checking a token signed under a configuration, under that configuration, recovers the JSON body |
| Jws.HeaderCheckNeeded | index.ts:85 | a token whose header claims another algorithm still verifies, and only the header comparison rejects it |
| Jws.MalformedTokenRejected | index.ts:83 | a token that is not three segments never passes the check |
| Http.BearerToken | index.ts:79-81 | a token is found iff the header starts with the case-sensitive `Bearer ` prefix, and it is what follows the prefix |
| Http.BearerTokenOfPrefixed | index.js:139-140 | a prefixed token is found and stripped back to itself |
| Http.Resolve | index.ts:41-43 | the identity is defined iff the payload is truthy and decodes to a truthy user, and it is then that user |
| IndexTs.Recorder.Record | index.ts:125 | one `revokeToken` call is appended to the hook's log |
| IndexTs.SessionStrategy | index.ts:47-49 | the session key defaults to `__auth` |
| IndexTs.SessionStore | index.ts:50-53 | `setPayload` stores the raw payload (a falsy one as undefined) and leaves every other key alone |
| IndexTs.SessionSetPayload | index.ts:50-53 | the session after `setPayload` is the stored map |
| IndexTs.SessionGetPayload | index.ts:54-56 | `getPayload` returns exactly what is stored and changes nothing |
| IndexTs.SessionClearPayload | index.ts:57-59 | `clearPayload` leaves the key undefined and the rest unchanged |
| IndexTs.MakeJwtStrategy | index.ts:61-77 | construction succeeds iff the secret is non-empty and the ttl non-zero, with the two error messages, and `alg` defaults to HS256 |
| IndexTs.IsRevoked | index.ts:94 | an absent oracle reports nothing; a present one reports exactly its tokens |
| IndexTs.IssueToken | index.ts:105-115 | the token signs, under the configured algorithm and secret, the header `{alg}` and the body `{payload, createdAt: now}` |
| IndexTs.GetPayloadWithTimestamp | index.ts:78-103 | a result needs a bearer token that passes the check, is not reported revoked, and has a valid `createdAt` no older than the ttl; the result is the body's `payload` and the instant of its `createdAt` |
| IndexTs.GetPayload | index.ts:116-118 | the payload of an accepted token, and undefined when no token is accepted |
| IndexTs.IssuedTokenLifetime | index.ts:78-115 | an issued token yields exactly its payload and issue time while `issuedAt >= now - ttl`, and nothing afterwards |
| IndexTs.SetThenGetPayload | index.ts:105-118 | within the ttl, the token from `setPayload(p)` reads back as `p` |
| IndexTs.ForeignTokenRejected | index.ts:83-85 | a token issued under another algorithm, or another secret (unless "none"), is refused |
| IndexTs.HeaderAlgConfusionRejected | index.ts:85 | a token whose header claims a different algorithm is refused even though it verifies |
| IndexTs.RevokedTokenRejected | index.ts:94 | a token the oracle reports is refused |
| IndexTs.UnprefixedTokenRejected | index.ts:80 | no header, or an issued token presented without `Bearer `, yields nothing |
| IndexTs.MalformedTokenRejected | index.ts:83 | a bearer token that is not three segments yields nothing |
| IndexTs.OneSegmentTokenRejected | index.test.ts:22 | `Bearer 123` yields nothing |
| IndexTs.TwoSegmentTokenRejected | index.test.ts:23 | `Bearer 123.456` yields nothing |
| IndexTs.IncompleteBodiesYieldNothing | index.ts:86-93 | signed bodies without `payload`, without `createdAt`, or with an unparseable date yield no payload |
| IndexTs.BodyFieldsRead | index.ts:86-95 | accepting a well-signed body depends only on its `createdAt`, the ttl and the oracle |
| IndexTs.RevocationDue | index.ts:119-128 | a revocation is due only with the hook set and an accepted token, and is the payload at `createdAt + ttl`, strictly after now |
| IndexTs.JwtClearPayload | index.ts:119-128 | `clearPayload` appends exactly the due revocation to the hook's log |
| IndexTs.LogoutRevokesIssuedToken | index.ts:119-128 | logging out with an issued token records one revocation of its payload at `issuedAt + ttl` while that is ahead of now, and none afterwards |
| IndexTs.RevocationOfAccepted | index.ts:120-126 | a token accepted exactly while `issuedAt >= now - ttl` is due for revocation exactly while `issuedAt + ttl > now` |
| IndexTs.RevocationOfStamped | index.ts:120-126 | how the revocation follows from the accepted token and its expiry |
| IndexTs.AcceptedButNotRevokedAtExpiry | index.ts:92 | at `now == issuedAt + ttl` the token is accepted, yet logout records nothing |
| IndexTs.CarriedPayload | index.ts:41 | the session strategy reads the stored value; the token strategy reads the payload of an accepted token, and undefined unless a token is accepted |
| IndexTs.SetPayload | index.ts:34 | the session strategy stores the payload; the token strategy returns the issued token and leaves the session alone |
| IndexTs.GetPayloadOf | index.ts:41 | the strategy's read yields the carried payload |
| IndexTs.ClearPayload | index.ts:39 | the session strategy erases the key; the token strategy records the due revocation |
| IndexTs.Handle | index.ts:30-45 | `login` and `logout` are installed, the identity is resolved from the carried payload, and `next()` is called once, last |
| IndexTs.Login | index.ts:31-36 | a truthy user becomes the identity and its encoding is stored or signed; a falsy user changes nothing |
| IndexTs.Logout | index.ts:37-40 | the identity becomes undefined and the strategy clears its carrier |
| IndexTs.SessionScenario | index.test.ts:162-182 | session login, logout and restore resolve the user, and `login(null)` keeps it |
| IndexTs.JwtScenario | index.test.ts:139-161 | construction from an empty options object, a secret only, or a ttl only fails with the matching error; a request without a bearer token resolves nothing; the issued token resolves the user on a later request; `login(null)` keeps it |
| IndexJs.SessionStrategy | index.js:99 | the key defaults to `__auth` and the expiry to 14 days |
| IndexJs.SessionStore | index.js:101-109 | a truthy payload is stored with its ISO creation time, a falsy one as undefined, and other keys are unchanged |
| IndexJs.SessionSetPayload | index.js:101-109 | the session after `setPayload` is the stored map |
| IndexJs.SessionCheck | index.js:110-119 | a record is fresh iff it is present, its `payload` and `createdAt` are truthy, and `createdAt` is a valid instant no older than the expiry |
| IndexJs.SessionAfterRead | index.js:111-119 | a read erases a present but stale entry and leaves an absent or fresh one, and every other key, untouched |
| IndexJs.SessionPayload | index.js:110-117 | the read returns a truthy value exactly for a fresh record, and it is then the record's `payload`; else undefined |
| IndexJs.SessionGetPayload | index.js:110-120 | `getPayload` returns the fresh payload and heals the session in place |
| IndexJs.StoredPayloadLifetime | index.js:101-117 | a stored truthy payload is fresh while `storedAt >= now - expire` and stale afterwards; a falsy one is absent |
| IndexJs.SetThenGetPayload | index.js:101-117 | within the expiry, the stored payload reads back and the session is unchanged |
| IndexJs.ExpiredPayloadErased | index.js:115-118 | past the expiry, nothing is returned and the entry is erased |
| IndexJs.HealingIsIdempotent | index.js:111-119 | after one read no stale entry remains, so a second read changes nothing and returns the same payload |
| IndexJs.JwtStrategy | index.js:124 | `alg` defaults to HS256 and the expiry to 14 days, and the secret is taken unchecked |
| IndexJs.IssueToken | index.js:126-135 | a token is issued iff the payload is truthy, and it signs the header `{alg}` and the body `{payload, createdAt}` with an ISO creation time |
| IndexJs.GetPayload | index.js:137-156 | a payload needs a bearer token that passes the check and a body with truthy `payload` and truthy `createdAt` that converts to a valid instant no older than the expiry, and it is the body's `payload`; else undefined |
| IndexJs.IssuedTokenLifetime | index.js:126-155 | an issued token yields exactly its payload while `issuedAt >= now - expire`, and nothing afterwards |
| IndexJs.BodyFieldsRead | index.js:142-149 | any JSON body signed under the configuration yields its `payload` exactly when `payload` and `createdAt` are truthy and `createdAt` is a valid instant no older than the expiry, whoever issued it |
| IndexJs.ForeignTokenRejected | index.js:142 | a token issued under another algorithm, or another secret (unless "none"), is refused |
| IndexJs.HeaderAlgConfusionRejected | index.js:144 | a token whose header claims a different algorithm is refused even though it verifies |
| IndexJs.MalformedTokenRejected | index.js:139-142 | no bearer header, or a token that is not three segments, yields nothing |
| IndexJs.CarriedPayload | index.js:80-82 | the carried payload is truthy or undefined; the session strategy reads the fresh record's payload, the token strategy the accepted token's payload |
| IndexJs.AfterRead | index.js:80 | only the session strategy changes the session on a read, and only under its key |
| IndexJs.SetPayload | index.js:57-63 | the session strategy stores a stamped record; the token strategy returns the token or undefined |
| IndexJs.GetPayloadOf | index.js:80-82 | the strategy's read yields the carried payload and leaves the healed session |
| IndexJs.Handle | index.js:50-93 | closures installed, identity resolved from the payload of the session as it was before healing, session healed, `next()` once, last |
| IndexJs.Login | index.js:50-69 | a truthy user becomes the identity and its encoding is stored or signed; a falsy user clears the identity and the carrier |
| IndexJs.Logout | index.js:70-79 | `logout()` is `login()`: the identity becomes undefined and a session entry is erased |
| IndexJs.SessionExpiryScenario | index.js:98-122 | a persisted session resolves the user within the expiry, resolves nothing past it and erases the entry, and `login(null)` clears the identity |
| IndexJs.JwtExpiryScenario | index.js:123-158 | the issued token resolves the user within the expiry and nothing past it |

## Left out

- Base64url, the signing algorithms, `JSON.stringify`/`JSON.parse`, `Date.parse` and `toISOString` are parameters of the model (`Platform.Host`). Their internals are not modelled; only the laws in `Sound` and `Unforgeable` are assumed by the lemmas that need them.
- The clock is the parameter `now`. Each operation reads it once, where the source may read it two or three times.
- `ms` duration-string parsing: durations are integers in milliseconds, and 14 days is written out.
- Promises and `async`: every await is taken as already resolved.
- `middleware-async`'s error propagation to `next(err)` is not modelled.
- An `encoder`, `decoder`, `isTokenRevoked` or `revokeToken` that throws or rejects is not modelled; a rejecting `revokeToken` would make `logout()` reject after `req.user` is cleared (`index.ts:37-40`, `index.ts:125`). They are taken as total, pure functions, and the revocation oracle is a set of tokens.
- Arrays, fractional numbers, NaN and `Date` objects as JSON values are not modelled. Numbers are integers, and `JsonSafe` excludes only `undefined`.
- A request without `req.session` (the non-null assertion in `index.ts`) is not modelled.
- `jws`'s own checks are not modelled: its segment-charset test, RS/ES key-format errors, and its parsing of a `typ: JWT` body. Algorithm names are limited to the `Algorithm` list of the types.
- `IndexTs.MakeJwtStrategy` takes the fields of an options object; a missing argument object (`jwtStrategy()`, `index.test.ts:138`) throws a destructuring TypeError before the secret check, which is not modelled.
- `IndexJs.JwtStrategy` does not model a missing argument object or an absent secret; the secret is a string.
- `Jws.Decode`: its contract gives necessary conditions only; the full behaviour on signed tokens is stated by `Jws.CompactVerifiesAndDecodes`.
- `Http.Request.constructor` models a fresh request object; Express itself is not part of this model.
- Cookie transport: neither variant reads or sets cookies.
- index.d.ts (generated typings), sample.js (application wiring) and jest.config.js are not part of this model.

/**
 * The older compiled variant (index.js): a session strategy that stores
 * `{payload, createdAt}` with an expiry and erases a stale or malformed entry when it
 * reads it, a signed-token strategy with an expiry and no revocation, and the
 * authentication middleware whose `logout` is `login()` with no user.
 */
module IndexJs {
  import opened Wrappers
  import opened JsValue
  import opened Platform
  import Jws
  import opened Http

  const DefaultKey: string := "__auth"
  const DefaultAlg: Jws.Alg := "HS256"
  /** `ms('14 days')`, in milliseconds. */
  const DefaultExpire: int := 1_209_600_000

  datatype SessionConfig = SessionConfig(key: string, expire: int)
  datatype JwtConfig = JwtConfig(secret: string, alg: Jws.Alg, expire: int)

  /** The two carrier strategies. */
  datatype Strategy = Session(session: SessionConfig) | Jwt(jwt: JwtConfig)

  /** What `makeAuthMiddleware` captures: the caller's encoder and decoder, and the strategy. */
  datatype Auth = Auth(encoder: Value -> Value, decoder: Value -> Value, strategy: Strategy)

  // ---------------------------------------------------------------------------
  // Session strategy

  /** `sessionStrategy({expire = ms('14 days'), key = '__auth'} = {})`. */
  function SessionStrategy(key: Option<string>, expire: Option<int>): (s: Strategy)
    ensures s.Session?
    ensures s.session.key == (if key.None? then "__auth" else key.value)
    ensures s.session.expire == (if expire.None? then 14 * 24 * 60 * 60 * 1000 else expire.value)
  {
    Session(SessionConfig(key.GetOr(DefaultKey), expire.GetOr(DefaultExpire)))
  }

  /**
   * The session after `setPayload(req, payload)` at time `now`: a truthy payload is
   * stored with its ISO creation time, a falsy one erases the entry; every other key
   * reads as before.
   */
  function SessionStore(h: Host, session: map<string, Value>, key: string, payload: Value, now: int)
    : (after: map<string, Value>)
    ensures Truthy(payload) ==> Lookup(after, key) == Stamp(payload, Str(h.isoString(now)))
    ensures !Truthy(payload) ==> Lookup(after, key) == Undefined
    ensures forall k :: k != key ==> Lookup(after, k) == Lookup(session, k)
    ensures after.Keys == session.Keys + {key}
  {
    session[key := if Truthy(payload) then Stamp(payload, Str(h.isoString(now))) else Undefined]
  }

  method SessionSetPayload(req: Request<Auth>, cfg: SessionConfig, payload: Value, h: Host, now: int)
    modifies req`session
    ensures req.session == SessionStore(h, old(req.session), cfg.key, payload, now)
  {
    if !Truthy(payload) {
      req.session := req.session[cfg.key := Undefined];
    } else {
      req.session := req.session[cfg.key := Stamp(payload, Str(h.isoString(now)))];
    }
  }

  /** How a read finds the session entry: none, a fresh record with its payload, or a record to erase. */
  datatype ReadOutcome = Absent | Fresh(payload: Value) | Stale

  /**
   * The verdict of `getPayload` on the entry under the key: a falsy entry is absent; a
   * record is fresh exactly when its `payload` and `createdAt` are truthy and `createdAt`
   * converts to an instant no older than `expire`; anything else is stale.
   */
  function SessionCheck(h: Host, cfg: SessionConfig, session: map<string, Value>, now: int): (r: ReadOutcome)
    ensures r.Absent? <==> !Truthy(Lookup(session, cfg.key))
    ensures var record := Lookup(session, cfg.key); var t := ToInstant(h, Prop(record, "createdAt"));
      r.Fresh? <==> Truthy(record) && Truthy(Prop(record, "payload")) && Truthy(Prop(record, "createdAt"))
                    && t.Some? && t.value >= now - cfg.expire
    ensures r.Fresh? ==> r.payload == Prop(Lookup(session, cfg.key), "payload") && Truthy(r.payload)
  {
    var record := Lookup(session, cfg.key);
    if !Truthy(record) then Absent
    else
      var payload, createdAt := Prop(record, "payload"), Prop(record, "createdAt");
      if Truthy(payload) && Truthy(createdAt) then
        match ToInstant(h, createdAt)
        case Some(t) => if t >= now - cfg.expire then Fresh(payload) else Stale
        case None => Stale
      else Stale
  }

  /** The session after a read: a stale entry is erased, otherwise nothing changes. */
  function SessionAfterRead(h: Host, cfg: SessionConfig, session: map<string, Value>, now: int)
    : (after: map<string, Value>)
    ensures SessionCheck(h, cfg, session, now).Stale? ==> after == session[cfg.key := Undefined]
    ensures !SessionCheck(h, cfg, session, now).Stale? ==> after == session
    ensures forall k :: k != cfg.key ==> Lookup(after, k) == Lookup(session, k)
  {
    if SessionCheck(h, cfg, session, now).Stale? then session[cfg.key := Undefined] else session
  }

  /** What `getPayload` returns: the payload of a fresh record, else undefined. */
  function SessionPayload(h: Host, cfg: SessionConfig, session: map<string, Value>, now: int): (payload: Value)
    ensures Truthy(payload) <==> SessionCheck(h, cfg, session, now).Fresh?
    ensures Truthy(payload) ==> payload == Prop(Lookup(session, cfg.key), "payload")
    ensures !Truthy(payload) ==> payload == Undefined
  {
    match SessionCheck(h, cfg, session, now)
    case Fresh(p) => p
    case _ => Undefined
  }

  /** `getPayload`: returns the fresh payload, and erases the entry when it is stale. */
  method SessionGetPayload(req: Request<Auth>, cfg: SessionConfig, h: Host, now: int) returns (payload: Value)
    modifies req`session
    ensures payload == SessionPayload(h, cfg, old(req.session), now)
    ensures req.session == SessionAfterRead(h, cfg, old(req.session), now)
  {
    payload := Undefined;
    var record := Lookup(req.session, cfg.key);
    if Truthy(record) {
      var p, createdAt := Prop(record, "payload"), Prop(record, "createdAt");
      if Truthy(p) && Truthy(createdAt) {
        var t := ToInstant(h, createdAt);
        if t.Some? && t.value >= now - cfg.expire {
          return p;
        }
      }
      req.session := req.session[cfg.key := Undefined];
    }
  }

  /**
   * The lifetime of a stored payload: read back at `now`, the entry written at `storedAt`
   * is fresh with exactly that payload while `storedAt >= now - expire`, and stale
   * afterwards; a falsy payload leaves nothing to read.
   */
  lemma {:induction false} StoredPayloadLifetime(h: Host, cfg: SessionConfig, session: map<string, Value>,
                                                 payload: Value, storedAt: int, now: int)
    requires Sound(h) && ValidTime(storedAt)
    ensures SessionCheck(h, cfg, SessionStore(h, session, cfg.key, payload, storedAt), now)
         == if !Truthy(payload) then Absent
            else if storedAt >= now - cfg.expire then Fresh(payload)
            else Stale
  {
    IsoRoundTrip(h, storedAt);
  }

  /** Round trip: within the expiry, the payload stored by `setPayload` is what `getPayload` returns. */
  lemma SetThenGetPayload(h: Host, cfg: SessionConfig, session: map<string, Value>,
                          payload: Value, storedAt: int, now: int)
    requires Sound(h) && ValidTime(storedAt) && Truthy(payload) && storedAt >= now - cfg.expire
    ensures var stored := SessionStore(h, session, cfg.key, payload, storedAt);
      SessionPayload(h, cfg, stored, now) == payload && SessionAfterRead(h, cfg, stored, now) == stored
  {
    StoredPayloadLifetime(h, cfg, session, payload, storedAt, now);
  }

  /** Past the expiry, the stored payload is not returned and the read erases the entry. */
  lemma ExpiredPayloadErased(h: Host, cfg: SessionConfig, session: map<string, Value>,
                             payload: Value, storedAt: int, now: int)
    requires Sound(h) && ValidTime(storedAt) && Truthy(payload) && storedAt < now - cfg.expire
    ensures var stored := SessionStore(h, session, cfg.key, payload, storedAt);
      SessionPayload(h, cfg, stored, now) == Undefined
      && SessionAfterRead(h, cfg, stored, now) == session[cfg.key := Undefined]
  {
    StoredPayloadLifetime(h, cfg, session, payload, storedAt, now);
  }

  /**
   * Self-healing settles after one read: the session a read leaves behind holds no stale
   * entry, so a second read at the same time returns the same payload and changes nothing.
   */
  lemma {:induction false} HealingIsIdempotent(h: Host, cfg: SessionConfig, session: map<string, Value>, now: int)
    ensures var after := SessionAfterRead(h, cfg, session, now);
      && !SessionCheck(h, cfg, after, now).Stale?
      && SessionAfterRead(h, cfg, after, now) == after
      && SessionPayload(h, cfg, after, now) == SessionPayload(h, cfg, session, now)
  {
    var after := SessionAfterRead(h, cfg, session, now);
    if SessionCheck(h, cfg, session, now).Stale? {
      assert Lookup(after, cfg.key) == Undefined;
    }
  }

  // ---------------------------------------------------------------------------
  // Signed-token strategy

  /** `jwtStrategy({secret, alg = 'HS256', expire = ms('14 days')})`: no argument is checked. */
  function JwtStrategy(secret: string, alg: Option<Jws.Alg>, expire: Option<int>): (s: Strategy)
    ensures s.Jwt? && s.jwt.secret == secret
    ensures s.jwt.alg == (if alg.None? then "HS256" else alg.value)
    ensures s.jwt.expire == (if expire.None? then 14 * 24 * 60 * 60 * 1000 else expire.value)
  {
    Jwt(JwtConfig(secret, alg.GetOr(DefaultAlg), expire.GetOr(DefaultExpire)))
  }

  /**
   * `setPayload(req, payload)` at time `now`: nothing for a falsy payload, otherwise the
   * token signing `{payload, createdAt}` (an ISO string) with header `{alg}`.
   */
  function IssueToken(h: Host, cfg: JwtConfig, payload: Value, now: int): (token: Option<string>)
    ensures token.Some? <==> Truthy(payload)
    ensures token.Some? ==>
      var input := Jws.SigningInput(h, Jws.AlgHeader(cfg.alg), h.stringify(Stamp(payload, Str(h.isoString(now)))));
      token.value == input + "." + h.signature(cfg.alg, cfg.secret, input)
  {
    if Truthy(payload)
    then Some(Jws.Sign(h, cfg.alg, h.stringify(Stamp(payload, Str(h.isoString(now)))), cfg.secret))
    else None
  }

  /**
   * `getPayload`: the presented bearer token passes the check, and its body carries a
   * truthy `payload` and a truthy `createdAt` that converts to an instant no older than
   * `expire`.  Every failure, and every exception on the way, is undefined.
   */
  function GetPayload(h: Host, cfg: JwtConfig, authentication: Option<string>, now: int): (payload: Value)
    ensures Truthy(payload) || payload == Undefined
    ensures Truthy(payload) ==> BearerToken(authentication).Some?
    ensures Truthy(payload) ==> var token := BearerToken(authentication).value;
      var body := Jws.VerifiedBody(h, token, cfg.alg, cfg.secret);
      && Jws.Verify(h, token, cfg.alg, cfg.secret)
      && body.Some? && payload == Prop(body.value, "payload")
      && Truthy(Prop(body.value, "createdAt"))
      && var t := ToInstant(h, Prop(body.value, "createdAt")); t.Some? && t.value >= now - cfg.expire
  {
    match BearerToken(authentication)
    case None => Undefined
    case Some(token) =>
      match Jws.VerifiedBody(h, token, cfg.alg, cfg.secret)
      case None => Undefined
      case Some(parsed) =>
        if Nullish(parsed) then Undefined  // destructuring null throws
        else
          var payload, createdAt := Prop(parsed, "payload"), Prop(parsed, "createdAt");
          if Truthy(payload) && Truthy(createdAt) then
            match ToInstant(h, createdAt)
            case Some(t) => if t >= now - cfg.expire then payload else Undefined
            case None => Undefined
          else Undefined
  }

  /**
   * The lifetime of an issued token: presented as a bearer token under the issuing
   * configuration, it yields exactly its payload while `issuedAt >= now - expire`, and
   * nothing afterwards.
   */
  lemma {:induction false} IssuedTokenLifetime(h: Host, cfg: JwtConfig, payload: Value, issuedAt: int, now: int)
    requires Sound(h) && JsonSafe(payload) && Truthy(payload) && ValidTime(issuedAt)
    ensures IssueToken(h, cfg, payload, issuedAt).Some?
    ensures GetPayload(h, cfg, Some(BearerPrefix + IssueToken(h, cfg, payload, issuedAt).value), now)
         == if issuedAt >= now - cfg.expire then payload else Undefined
  {
    var iso := Str(h.isoString(issuedAt));
    IsoRoundTrip(h, issuedAt);
    StampJsonSafe(payload, iso);
    Jws.SignedBodyRecovered(h, cfg.alg, Stamp(payload, iso), cfg.secret);
    BearerTokenOfPrefixed(IssueToken(h, cfg, payload, issuedAt).value);
  }

  /**
   * Any JSON body signed under the configuration, not only one this strategy issued, is
   * read by its own fields: it yields its `payload` exactly when `payload` and `createdAt`
   * are truthy and `createdAt` converts to an instant no older than `expire`.
   */
  lemma BodyFieldsRead(h: Host, cfg: JwtConfig, body: Value, now: int)
    requires Sound(h) && JsonSafe(body) && !Nullish(body)
    ensures var token := Jws.Sign(h, cfg.alg, h.stringify(body), cfg.secret);
      var createdAt := Prop(body, "createdAt"); var t := ToInstant(h, createdAt);
      GetPayload(h, cfg, Some(BearerPrefix + token), now)
        == if Truthy(Prop(body, "payload")) && Truthy(createdAt) && t.Some? && t.value >= now - cfg.expire
           then Prop(body, "payload") else Undefined
  {
    Jws.SignedBodyRecovered(h, cfg.alg, body, cfg.secret);
    BearerTokenOfPrefixed(Jws.Sign(h, cfg.alg, h.stringify(body), cfg.secret));
  }

  /**
   * A token issued under one configuration is refused under another whose algorithm
   * differs, or whose secret differs when the algorithm is not "none".
   */
  lemma ForeignTokenRejected(h: Host, issuer: JwtConfig, cfg: JwtConfig, payload: Value, issuedAt: int, now: int)
    requires Sound(h) && Unforgeable(h) && Truthy(payload)
    requires cfg.alg != issuer.alg || (issuer.alg != "none" && cfg.secret != issuer.secret)
    ensures GetPayload(h, cfg, Some(BearerPrefix + IssueToken(h, issuer, payload, issuedAt).value), now) == Undefined
  {
    var body := h.stringify(Stamp(payload, Str(h.isoString(issuedAt))));
    Jws.VerifyPinsAlgAndSecret(h, Jws.AlgHeader(issuer.alg), issuer.alg, body, issuer.secret, cfg.alg, cfg.secret);
  }

  /**
   * A token whose header claims an algorithm other than the configured one is refused
   * even though its signature verifies under the configured algorithm and secret.
   */
  lemma HeaderAlgConfusionRejected(h: Host, cfg: JwtConfig, claimed: string, body: string, now: int)
    requires Sound(h) && claimed != cfg.alg
    ensures var token := Jws.Compact(h, Jws.AlgHeader(claimed), cfg.alg, body, cfg.secret);
      Jws.Verify(h, token, cfg.alg, cfg.secret)
      && GetPayload(h, cfg, Some(BearerPrefix + token), now) == Undefined
  {
    Jws.HeaderCheckNeeded(h, cfg.alg, claimed, body, cfg.secret);
  }

  /** A presented token that is not three dot-separated segments is refused, and so is a missing header. */
  lemma MalformedTokenRejected(h: Host, cfg: JwtConfig, token: string, now: int)
    requires |Jws.Split(token)| != 3
    ensures GetPayload(h, cfg, Some(BearerPrefix + token), now) == Undefined
    ensures GetPayload(h, cfg, None, now) == Undefined
  {
    BearerTokenOfPrefixed(token);
    Jws.MalformedTokenRejected(h, token, cfg.alg, cfg.secret);
  }

  // ---------------------------------------------------------------------------
  // Strategy dispatch

  /** What `strategy.getPayload(req)` returns for the request's session and header. */
  function CarriedPayload(h: Host, strategy: Strategy, session: map<string, Value>,
                          authentication: Option<string>, now: int): (payload: Value)
    ensures Truthy(payload) || payload == Undefined
    ensures strategy.Session? ==> (Truthy(payload) <==> SessionCheck(h, strategy.session, session, now).Fresh?)
    ensures strategy.Session? ==> payload == SessionPayload(h, strategy.session, session, now)
    ensures strategy.Jwt? ==> payload == GetPayload(h, strategy.jwt, authentication, now)
  {
    match strategy
    case Session(cfg) => SessionPayload(h, cfg, session, now)
    case Jwt(cfg) => GetPayload(h, cfg, authentication, now)
  }

  /** The session after `strategy.getPayload(req)`: only the session strategy heals it. */
  function AfterRead(h: Host, strategy: Strategy, session: map<string, Value>, now: int): (after: map<string, Value>)
    ensures strategy.Jwt? ==> after == session
    ensures forall k :: (strategy.Jwt? || k != strategy.session.key) ==> Lookup(after, k) == Lookup(session, k)
  {
    match strategy
    case Session(cfg) => SessionAfterRead(h, cfg, session, now)
    case Jwt(_) => session
  }

  /** A token option as the value `setPayload` returns. */
  function TokenValue(token: Option<string>): (v: Value)
    ensures token.Some? ==> v == Str(token.value)
    ensures token.None? ==> v == Undefined
  {
    match token
    case Some(t) => Str(t)
    case None => Undefined
  }

  method SetPayload(req: Request<Auth>, strategy: Strategy, payload: Value, h: Host, now: int) returns (result: Value)
    modifies req`session
    ensures strategy.Session? ==>
      req.session == SessionStore(h, old(req.session), strategy.session.key, payload, now) && result == Undefined
    ensures strategy.Jwt? ==>
      req.session == old(req.session) && result == TokenValue(IssueToken(h, strategy.jwt, payload, now))
  {
    match strategy
    case Session(cfg) =>
      SessionSetPayload(req, cfg, payload, h, now);
      result := Undefined;
    case Jwt(cfg) =>
      result := TokenValue(IssueToken(h, cfg, payload, now));
  }

  method GetPayloadOf(req: Request<Auth>, strategy: Strategy, h: Host, now: int) returns (payload: Value)
    modifies req`session
    ensures payload == CarriedPayload(h, strategy, old(req.session), req.authentication, now)
    ensures req.session == AfterRead(h, strategy, old(req.session), now)
  {
    match strategy
    case Session(cfg) =>
      payload := SessionGetPayload(req, cfg, h, now);
    case Jwt(cfg) =>
      payload := GetPayload(h, cfg, req.authentication, now);
  }

  // ---------------------------------------------------------------------------
  // Authentication middleware

  /**
   * One run of the middleware on a request: `login` and `logout` installed, then the
   * identity resolved from the strategy's payload (the session strategy erasing a stale
   * entry on the way), then `next()`.
   */
  method Handle(req: Request<Auth>, auth: Auth, h: Host, now: int)
    modifies req`login, req`logout, req`user, req`steps, req`session
    ensures req.login == Some(auth) && req.logout == Some(auth)
    ensures req.user == Resolve(auth.decoder, CarriedPayload(h, auth.strategy, old(req.session), req.authentication, now))
    ensures req.session == AfterRead(h, auth.strategy, old(req.session), now)
    ensures req.steps == old(req.steps) + MiddlewareSteps
    ensures old(req.steps) == [] ==> NextOnceLast(req.steps)
  {
    req.login, req.logout := Some(auth), Some(auth);
    req.steps := req.steps + [InstallLogin, InstallLogout];
    var payload := GetPayloadOf(req, auth.strategy, h, now);
    req.steps := req.steps + [ReadPayload];
    if Truthy(payload) {
      req.user := OrUndefined(auth.decoder(payload));
    } else {
      req.user := Undefined;
    }
    req.steps := req.steps + [Next];
  }

  /**
   * `req.login(user)`: a truthy user becomes the identity and its encoding is handed to
   * `setPayload`, whose result is returned; a falsy user clears the identity and the
   * carrier (`setPayload(req, undefined)`) and returns undefined.
   */
  method Login(req: Request<Auth>, user: Value, h: Host, now: int) returns (result: Value)
    requires req.login.Some?
    modifies req`user, req`session
    ensures Truthy(user) ==> req.user == user
    ensures !Truthy(user) ==> req.user == Undefined && result == Undefined
    ensures var auth := req.login.value; var payload := if Truthy(user) then auth.encoder(user) else Undefined;
      auth.strategy.Session? ==>
        req.session == SessionStore(h, old(req.session), auth.strategy.session.key, payload, now) && result == Undefined
    ensures var auth := req.login.value; var payload := if Truthy(user) then auth.encoder(user) else Undefined;
      auth.strategy.Jwt? ==>
        req.session == old(req.session) && result == TokenValue(IssueToken(h, auth.strategy.jwt, payload, now))
  {
    var auth := req.login.value;
    if Truthy(user) {
      req.user := user;
      result := SetPayload(req, auth.strategy, auth.encoder(user), h, now);
    } else {
      req.user := Undefined;
      var _ := SetPayload(req, auth.strategy, Undefined, h, now);
      result := Undefined;
    }
  }

  /** `req.logout()` is `req.login()`: the identity becomes undefined and a session entry is erased. */
  method Logout(req: Request<Auth>, h: Host, now: int)
    requires req.login.Some?
    modifies req`user, req`session
    ensures req.user == Undefined
    ensures var strategy := req.login.value.strategy;
      strategy.Session? ==> req.session == old(req.session)[strategy.session.key := Undefined]
    ensures req.login.value.strategy.Jwt? ==> req.session == old(req.session)
  {
    var _ := Login(req, Undefined, h, now);
  }

  // ---------------------------------------------------------------------------
  // Scenarios, as clients of the methods above

  /**
   * With the session strategy and a session that persists across requests: after login,
   * a request within the expiry resolves the user; a request past it resolves nothing and
   * leaves the entry erased; `login(null)` clears the identity.
   */
  method SessionExpiryScenario(encoder: Value -> Value, decoder: Value -> Value, user: Value, h: Host,
                               expire: int, loggedInAt: int, within: int, beyond: int)
    returns (resolved: Value, afterNullLogin: Value, expired: Value, entry: Value)
    requires Sound(h) && ValidTime(loggedInAt)
    requires loggedInAt >= within - expire && loggedInAt < beyond - expire
    requires Truthy(user) && Truthy(encoder(user)) && decoder(encoder(user)) == user
    ensures resolved == user && afterNullLogin == Undefined
    ensures expired == Undefined && entry == Undefined
  {
    var auth := Auth(encoder, decoder, SessionStrategy(None, Some(expire)));
    var cfg := auth.strategy.session;
    var req := new Request<Auth>(None, map[]);
    Handle(req, auth, h, loggedInAt);
    var _ := Login(req, user, h, loggedInAt);
    var saved := req.session;

    var req2 := new Request<Auth>(None, saved);
    SetThenGetPayload(h, cfg, map[], encoder(user), loggedInAt, within);
    Handle(req2, auth, h, within);
    resolved := req2.user;
    var _ := Login(req2, Null, h, within);
    afterNullLogin := req2.user;

    var req3 := new Request<Auth>(None, saved);
    ExpiredPayloadErased(h, cfg, map[], encoder(user), loggedInAt, beyond);
    Handle(req3, auth, h, beyond);
    expired := req3.user;
    entry := Lookup(req3.session, DefaultKey);
  }

  /**
   * With the token strategy: a request without a bearer token resolves nothing; the
   * token `login` returns resolves the user on a later request within the expiry and
   * nothing past it.
   */
  method JwtExpiryScenario(encoder: Value -> Value, decoder: Value -> Value, user: Value, h: Host,
                           expire: int, loggedInAt: int, within: int, beyond: int)
    returns (before: Value, resolved: Value, expired: Value)
    requires Sound(h) && ValidTime(loggedInAt)
    requires loggedInAt >= within - expire && loggedInAt < beyond - expire
    requires Truthy(user) && JsonSafe(encoder(user)) && Truthy(encoder(user)) && decoder(encoder(user)) == user
    ensures before == Undefined && resolved == user && expired == Undefined
  {
    var auth := Auth(encoder, decoder, JwtStrategy("my secret", None, Some(expire)));
    var cfg := auth.strategy.jwt;
    var req := new Request<Auth>(Some("123"), map[]);
    Handle(req, auth, h, loggedInAt);
    before := req.user;
    IssuedTokenLifetime(h, cfg, encoder(user), loggedInAt, within);
    var token := Login(req, user, h, loggedInAt);

    var req2 := new Request<Auth>(Some(BearerPrefix + token.s), map[]);
    Handle(req2, auth, h, within);
    resolved := req2.user;

    IssuedTokenLifetime(h, cfg, encoder(user), loggedInAt, beyond);
    var req3 := new Request<Auth>(Some(BearerPrefix + token.s), map[]);
    Handle(req3, auth, h, beyond);
    expired := req3.user;
  }
}

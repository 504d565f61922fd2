/**
 * The current TypeScript variant (index.ts): a session strategy that stores the raw
 * payload with no timestamp, a signed-token strategy whose tokens carry
 * `{payload, createdAt}` and which consults a revocation oracle and records
 * revocations, and the authentication middleware.
 */
module IndexTs {
  import opened Wrappers
  import opened JsValue
  import opened Platform
  import Jws
  import opened Http

  const DefaultKey: string := "__auth"
  const DefaultAlg: Jws.Alg := "HS256"

  /** One call `revokeToken(payload, new Date(expire))`. */
  datatype Revocation = Revocation(payload: Value, expire: int)

  /** The application's `revokeToken` hook, seen as the log of its calls. */
  class Recorder {
    var calls: seq<Revocation>

    constructor ()
      ensures calls == []
    {
      calls := [];
    }

    method Record(r: Revocation)
      modifies this
      ensures calls == old(calls) + [r]
    {
      calls := calls + [r];
    }
  }

  /**
   * The signed-token strategy's configuration.  `isTokenRevoked` is the revocation
   * oracle as the set of tokens it reports; `revokeToken` is the recording hook.
   */
  datatype JwtConfig = JwtConfig(
    secret: string,
    alg: Jws.Alg,
    ttl: int,
    isTokenRevoked: Option<set<string>>,
    revokeToken: Option<Recorder>)

  /** The two carrier strategies. */
  datatype Strategy = Session(key: string) | Jwt(config: JwtConfig)

  /** What `makeAuthMiddleware` captures: the caller's encoder and decoder, and the strategy. */
  datatype Auth = Auth(encoder: Value -> Value, decoder: Value -> Value, strategy: Strategy)

  /** The objects a strategy's `clearPayload` may change. */
  function StrategyFrame(strategy: Strategy): set<object> {
    if strategy.Jwt? && strategy.config.revokeToken.Some? then {strategy.config.revokeToken.value} else {}
  }

  // ---------------------------------------------------------------------------
  // Session strategy

  /** `sessionStrategy({key = '__auth'} = {})`. */
  function SessionStrategy(key: Option<string>): (s: Strategy)
    ensures s.Session?
    ensures key.None? ==> s.key == "__auth"
    ensures key.Some? ==> s.key == key.value
  {
    Session(key.GetOr(DefaultKey))
  }

  /**
   * The session after `setPayload(req, payload)`: the raw payload under `key` (undefined
   * for a falsy payload); every other key reads as before.
   */
  function SessionStore(session: map<string, Value>, key: string, payload: Value): (after: map<string, Value>)
    ensures Lookup(after, key) == OrUndefined(payload)
    ensures Truthy(payload) ==> Lookup(after, key) == payload
    ensures forall k :: k != key ==> Lookup(after, k) == Lookup(session, k)
    ensures after.Keys == session.Keys + {key}
  {
    session[key := OrUndefined(payload)]
  }

  method SessionSetPayload(req: Request<Auth>, key: string, payload: Value)
    modifies req`session
    ensures req.session == SessionStore(old(req.session), key, payload)
  {
    if !Truthy(payload) {
      req.session := req.session[key := Undefined];
    } else {
      req.session := req.session[key := payload];
    }
  }

  /** `getPayload` returns exactly what is stored, malformed or not, and changes nothing. */
  method SessionGetPayload(req: Request<Auth>, key: string) returns (payload: Value)
    ensures payload == Lookup(req.session, key)
  {
    payload := if key in req.session then req.session[key] else Undefined;
  }

  /** `clearPayload` is `setPayload` with no payload: the key reads as undefined, the rest is kept. */
  method SessionClearPayload(req: Request<Auth>, key: string)
    modifies req`session
    ensures req.session == SessionStore(old(req.session), key, Undefined)
  {
    req.session := req.session[key := Undefined];
  }

  // ---------------------------------------------------------------------------
  // Signed-token strategy

  /**
   * `jwtStrategy({secret, alg = 'HS256', ttl, isTokenRevoked, revokeToken})`: construction
   * throws unless the secret is a non-empty string and the ttl a non-zero number.
   */
  function MakeJwtStrategy(secret: Option<string>, alg: Option<Jws.Alg>, ttl: Option<int>,
                           isTokenRevoked: Option<set<string>>, revokeToken: Option<Recorder>): (r: Result<Strategy>)
    ensures r.Ok? <==> secret.Some? && secret.value != "" && ttl.Some? && ttl.value != 0
    ensures (secret.None? || secret.value == "") ==> r == Err("Secret is required")
    ensures secret.Some? && secret.value != "" && (ttl.None? || ttl.value == 0) ==> r == Err("TTL is required")
    ensures r.Ok? ==> r.value.Jwt? && r.value.config.secret == secret.value && r.value.config.ttl == ttl.value
    ensures r.Ok? ==> r.value.config.alg == (if alg.None? then "HS256" else alg.value)
    ensures r.Ok? ==> r.value.config.isTokenRevoked == isTokenRevoked && r.value.config.revokeToken == revokeToken
  {
    if secret.None? || secret.value == "" then Err("Secret is required")
    else if ttl.None? || ttl.value == 0 then Err("TTL is required")
    else Ok(Jwt(JwtConfig(secret.value, alg.GetOr(DefaultAlg), ttl.value, isTokenRevoked, revokeToken)))
  }

  /** `await isTokenRevoked?.(token)` is truthy. */
  function IsRevoked(oracle: Option<set<string>>, token: string): (revoked: bool)
    ensures oracle.None? ==> !revoked
    ensures oracle.Some? ==> (revoked <==> token in oracle.value)
  {
    oracle.Some? && token in oracle.value
  }

  /** The token `setPayload(req, payload)` returns when called at time `now`. */
  function IssueToken(h: Host, cfg: JwtConfig, payload: Value, now: int): (token: string)
    ensures var input := Jws.SigningInput(h, Jws.AlgHeader(cfg.alg), h.stringify(Stamp(payload, Num(now))));
      token == input + "." + h.signature(cfg.alg, cfg.secret, input)
  {
    Jws.Sign(h, cfg.alg, h.stringify(Stamp(payload, Num(now))), cfg.secret)
  }

  datatype Stamped = Stamped(payload: Value, createdAt: int)

  /**
   * `getPayloadWithTimestamp`: the presented bearer token passes the check, its
   * `createdAt` is a valid instant no older than `ttl`, and the oracle does not report it.
   * Every failure, and every exception on the way, is `None`.
   */
  function GetPayloadWithTimestamp(h: Host, cfg: JwtConfig, authentication: Option<string>, now: int): (r: Option<Stamped>)
    ensures r.Some? ==> BearerToken(authentication).Some?
    ensures r.Some? ==> var token := BearerToken(authentication).value;
      && Jws.Verify(h, token, cfg.alg, cfg.secret)
      && Jws.VerifiedBody(h, token, cfg.alg, cfg.secret).Some?
      && !IsRevoked(cfg.isTokenRevoked, token)
    ensures r.Some? ==> ValidTime(r.value.createdAt) && r.value.createdAt >= now - cfg.ttl
    ensures r.Some? ==>
      var body := Jws.VerifiedBody(h, BearerToken(authentication).value, cfg.alg, cfg.secret).value;
      ToInstant(h, Prop(body, "createdAt")) == Some(r.value.createdAt) && r.value.payload == Prop(body, "payload")
  {
    match BearerToken(authentication)
    case None => None
    case Some(token) =>
      match Jws.VerifiedBody(h, token, cfg.alg, cfg.secret)
      case None => None
      case Some(parsed) =>
        if Nullish(parsed) then None  // destructuring null throws
        else
          match ToInstant(h, Prop(parsed, "createdAt"))
          case None => None
          case Some(createdAt) =>
            if createdAt >= now - cfg.ttl then
              if IsRevoked(cfg.isTokenRevoked, token) then None
              else Some(Stamped(Prop(parsed, "payload"), createdAt))
            else None
  }

  /** `getPayload`: the payload of an accepted token, else undefined. */
  function GetPayload(h: Host, cfg: JwtConfig, authentication: Option<string>, now: int): (payload: Value)
    ensures GetPayloadWithTimestamp(h, cfg, authentication, now).None? ==> payload == Undefined
    ensures GetPayloadWithTimestamp(h, cfg, authentication, now).Some? ==>
      payload == GetPayloadWithTimestamp(h, cfg, authentication, now).value.payload
  {
    match GetPayloadWithTimestamp(h, cfg, authentication, now)
    case None => Undefined
    case Some(s) => s.payload
  }

  /**
   * The lifetime of an issued token: presented as a bearer token under the issuing
   * configuration and not reported by the oracle, it yields exactly its payload and
   * issue time while `issuedAt >= now - ttl`, and nothing afterwards.
   */
  lemma {:induction false} IssuedTokenLifetime(h: Host, cfg: JwtConfig, payload: Value, issuedAt: int, now: int)
    requires Sound(h) && JsonSafe(payload) && ValidTime(issuedAt)
    requires !IsRevoked(cfg.isTokenRevoked, IssueToken(h, cfg, payload, issuedAt))
    ensures GetPayloadWithTimestamp(h, cfg, Some(BearerPrefix + IssueToken(h, cfg, payload, issuedAt)), now)
         == if issuedAt >= now - cfg.ttl then Some(Stamped(payload, issuedAt)) else None
  {
    var body := Stamp(payload, Num(issuedAt));
    StampJsonSafe(payload, Num(issuedAt));
    Jws.SignedBodyRecovered(h, cfg.alg, body, cfg.secret);
    BearerTokenOfPrefixed(IssueToken(h, cfg, payload, issuedAt));
  }

  /** Round trip: within the ttl, the token from `setPayload(req, p)` reads back as exactly `p`. */
  lemma SetThenGetPayload(h: Host, cfg: JwtConfig, payload: Value, issuedAt: int, now: int)
    requires Sound(h) && JsonSafe(payload) && ValidTime(issuedAt) && issuedAt >= now - cfg.ttl
    requires !IsRevoked(cfg.isTokenRevoked, IssueToken(h, cfg, payload, issuedAt))
    ensures GetPayload(h, cfg, Some(BearerPrefix + IssueToken(h, cfg, payload, issuedAt)), now) == payload
  {
    IssuedTokenLifetime(h, cfg, payload, issuedAt, now);
  }

  /**
   * A token issued under one configuration is refused under another whose algorithm
   * differs, or whose secret differs when the algorithm is not "none".
   */
  lemma ForeignTokenRejected(h: Host, issuer: JwtConfig, cfg: JwtConfig, payload: Value, issuedAt: int, now: int)
    requires Sound(h) && Unforgeable(h)
    requires cfg.alg != issuer.alg || (issuer.alg != "none" && cfg.secret != issuer.secret)
    ensures GetPayloadWithTimestamp(h, cfg, Some(BearerPrefix + IssueToken(h, issuer, payload, issuedAt)), now) == None
  {
    var body := h.stringify(Stamp(payload, Num(issuedAt)));
    Jws.VerifyPinsAlgAndSecret(h, Jws.AlgHeader(issuer.alg), issuer.alg, body, issuer.secret, cfg.alg, cfg.secret);
  }

  /**
   * A token whose header claims an algorithm other than the configured one is refused
   * even though its signature verifies under the configured algorithm and secret.
   */
  lemma HeaderAlgConfusionRejected(h: Host, cfg: JwtConfig, claimed: string, body: string, now: int)
    requires Sound(h) && claimed != cfg.alg
    ensures var token := Jws.Compact(h, Jws.AlgHeader(claimed), cfg.alg, body, cfg.secret);
      Jws.Verify(h, token, cfg.alg, cfg.secret)
      && GetPayloadWithTimestamp(h, cfg, Some(BearerPrefix + token), now) == None
  {
    Jws.HeaderCheckNeeded(h, cfg.alg, claimed, body, cfg.secret);
  }

  /** A token the oracle reports is refused, whatever else holds of it. */
  lemma RevokedTokenRejected(h: Host, cfg: JwtConfig, token: string, now: int)
    requires IsRevoked(cfg.isTokenRevoked, token)
    ensures GetPayloadWithTimestamp(h, cfg, Some(BearerPrefix + token), now) == None
  {
    BearerTokenOfPrefixed(token);
  }

  /**
   * Without the case-sensitive `Bearer ` prefix nothing is read: no header at all, or
   * an issued token presented bare.
   */
  lemma UnprefixedTokenRejected(h: Host, cfg: JwtConfig, payload: Value, issuedAt: int, now: int)
    requires Sound(h)
    ensures GetPayloadWithTimestamp(h, cfg, None, now) == None
    ensures GetPayloadWithTimestamp(h, cfg, Some(IssueToken(h, cfg, payload, issuedAt)), now) == None
  {
    var body := h.stringify(Stamp(payload, Num(issuedAt)));
    var token := IssueToken(h, cfg, payload, issuedAt);
    Jws.CompactAlphabet(h, Jws.AlgHeader(cfg.alg), cfg.alg, body, cfg.secret);
    assert !(BearerPrefix <= token) by {
      if |token| >= |BearerPrefix| {
        assert Base64UrlChar(token[6]) || token[6] == '.';
      }
    }
  }

  /** A presented token that is not three dot-separated segments is refused. */
  lemma MalformedTokenRejected(h: Host, cfg: JwtConfig, token: string, now: int)
    requires |Jws.Split(token)| != 3
    ensures GetPayloadWithTimestamp(h, cfg, Some(BearerPrefix + token), now) == None
  {
    BearerTokenOfPrefixed(token);
    Jws.MalformedTokenRejected(h, token, cfg.alg, cfg.secret);
  }

  /** The one-segment token of the test suite, `Bearer 123`, is refused. */
  lemma OneSegmentTokenRejected(h: Host, cfg: JwtConfig, now: int)
    ensures GetPayloadWithTimestamp(h, cfg, Some(BearerPrefix + "123"), now) == None
  {
    Jws.SplitDotless("123");
    MalformedTokenRejected(h, cfg, "123", now);
  }

  /** The two-segment token of the test suite, `Bearer 123.456`, is refused. */
  lemma TwoSegmentTokenRejected(h: Host, cfg: JwtConfig, now: int)
    ensures GetPayloadWithTimestamp(h, cfg, Some(BearerPrefix + "123.456"), now) == None
  {
    Jws.SplitCons("123", "456");
    Jws.SplitDotless("456");
    assert "123" + "." + "456" == "123.456";
    MalformedTokenRejected(h, cfg, "123.456", now);
  }

  /**
   * Well-signed bodies that lack what the token strategy needs yield no payload: no
   * `payload` member, no `createdAt` member, or a `createdAt` that is not a date.
   */
  lemma IncompleteBodiesYieldNothing(h: Host, cfg: JwtConfig, payload: Value, t: int, bad: string, now: int)
    requires Sound(h) && JsonSafe(payload) && h.parseDate(bad) == None
    ensures GetPayload(h, cfg, Some(BearerPrefix + SignBody(h, cfg, Obj(map["createdAt" := Num(t)]))), now) == Undefined
    ensures GetPayload(h, cfg, Some(BearerPrefix + SignBody(h, cfg, Obj(map["payload" := payload]))), now) == Undefined
    ensures GetPayload(h, cfg, Some(BearerPrefix + SignBody(h, cfg, Stamp(payload, Str(bad)))), now) == Undefined
  {
    var noPayload := Obj(map["createdAt" := Num(t)]);
    var noStamp := Obj(map["payload" := payload]);
    assert JsonSafe(noPayload) by {
      assert forall k :: k in noPayload.fields ==> noPayload.fields[k] == Num(t);
    }
    assert JsonSafe(noStamp) by {
      assert forall k :: k in noStamp.fields ==> noStamp.fields[k] == payload;
    }
    StampJsonSafe(payload, Str(bad));
    BodyFieldsRead(h, cfg, noPayload, now);
    BodyFieldsRead(h, cfg, noStamp, now);
    BodyFieldsRead(h, cfg, Stamp(payload, Str(bad)), now);
  }

  /** A token signed under the configuration with an arbitrary JSON body (as the tests build them). */
  function SignBody(h: Host, cfg: JwtConfig, body: Value): string {
    Jws.Sign(h, cfg.alg, h.stringify(body), cfg.secret)
  }

  /** Accepting a well-signed body depends only on its `createdAt` and on the oracle. */
  lemma BodyFieldsRead(h: Host, cfg: JwtConfig, body: Value, now: int)
    requires Sound(h) && JsonSafe(body) && !Nullish(body)
    ensures var token := SignBody(h, cfg, body);
      GetPayloadWithTimestamp(h, cfg, Some(BearerPrefix + token), now)
        == match ToInstant(h, Prop(body, "createdAt"))
           case Some(createdAt) =>
             if createdAt >= now - cfg.ttl && !IsRevoked(cfg.isTokenRevoked, token)
             then Some(Stamped(Prop(body, "payload"), createdAt)) else None
           case None => None
  {
    Jws.SignedBodyRecovered(h, cfg.alg, body, cfg.secret);
    BearerTokenOfPrefixed(SignBody(h, cfg, body));
  }

  // ---------------------------------------------------------------------------
  // Revocation on clearPayload

  /**
   * The call `clearPayload` makes to `revokeToken`, if any: only with the hook configured,
   * for an accepted token whose expiry `createdAt + ttl` is still ahead of `now`.
   */
  function RevocationDue(h: Host, cfg: JwtConfig, authentication: Option<string>, now: int): (r: Option<Revocation>)
    ensures r.Some? ==> cfg.revokeToken.Some? && BearerToken(authentication).Some?
    ensures r.Some? ==> var s := GetPayloadWithTimestamp(h, cfg, authentication, now);
      s.Some? && r.value == Revocation(s.value.payload, s.value.createdAt + cfg.ttl) && r.value.expire > now
  {
    if cfg.revokeToken.None? then None
    else
      match GetPayloadWithTimestamp(h, cfg, authentication, now)
      case None => None
      case Some(s) =>
        var expire := s.createdAt + cfg.ttl;
        if expire > now then Some(Revocation(s.payload, expire)) else None
  }

  method JwtClearPayload(h: Host, cfg: JwtConfig, authentication: Option<string>, now: int)
    modifies StrategyFrame(Jwt(cfg))
    ensures cfg.revokeToken.Some? ==>
      cfg.revokeToken.value.calls == old(cfg.revokeToken.value.calls)
        + (match RevocationDue(h, cfg, authentication, now) case Some(r) => [r] case None => [])
  {
    if cfg.revokeToken.Some? {
      var stamped := GetPayloadWithTimestamp(h, cfg, authentication, now);
      if stamped.Some? {
        var expire := stamped.value.createdAt + cfg.ttl;
        if expire > now {
          cfg.revokeToken.value.Record(Revocation(stamped.value.payload, expire));
        }
      }
    }
  }

  /**
   * Logging out with the token `login` issued records one revocation, of the issued
   * payload at expiry `issuedAt + ttl`, while that expiry is ahead of `now`, and none
   * afterwards.
   */
  lemma LogoutRevokesIssuedToken(h: Host, cfg: JwtConfig, payload: Value, issuedAt: int, now: int)
    requires Sound(h) && JsonSafe(payload) && ValidTime(issuedAt) && cfg.revokeToken.Some?
    requires !IsRevoked(cfg.isTokenRevoked, IssueToken(h, cfg, payload, issuedAt))
    ensures RevocationDue(h, cfg, Some(BearerPrefix + IssueToken(h, cfg, payload, issuedAt)), now)
         == if issuedAt + cfg.ttl > now then Some(Revocation(payload, issuedAt + cfg.ttl)) else None
  {
    IssuedTokenLifetime(h, cfg, payload, issuedAt, now);
    RevocationOfAccepted(h, cfg, IssueToken(h, cfg, payload, issuedAt), payload, issuedAt, now);
  }

  /** The revocation due for a token accepted exactly while `issuedAt >= now - ttl`. */
  lemma RevocationOfAccepted(h: Host, cfg: JwtConfig, token: string, payload: Value, issuedAt: int, now: int)
    requires cfg.revokeToken.Some?
    requires GetPayloadWithTimestamp(h, cfg, Some(BearerPrefix + token), now)
          == if issuedAt >= now - cfg.ttl then Some(Stamped(payload, issuedAt)) else None
    ensures RevocationDue(h, cfg, Some(BearerPrefix + token), now)
         == if issuedAt + cfg.ttl > now then Some(Revocation(payload, issuedAt + cfg.ttl)) else None
  {
    if issuedAt >= now - cfg.ttl {
      RevocationOfStamped(h, cfg, Some(BearerPrefix + token), now, Some(Stamped(payload, issuedAt)));
    } else {
      RevocationOfStamped(h, cfg, Some(BearerPrefix + token), now, None);
    }
  }

  lemma RevocationOfStamped(h: Host, cfg: JwtConfig, authentication: Option<string>, now: int, stamped: Option<Stamped>)
    requires cfg.revokeToken.Some? && GetPayloadWithTimestamp(h, cfg, authentication, now) == stamped
    ensures stamped.None? ==> RevocationDue(h, cfg, authentication, now) == None
    ensures stamped.Some? && stamped.value.createdAt + cfg.ttl > now ==>
      RevocationDue(h, cfg, authentication, now) == Some(Revocation(stamped.value.payload, stamped.value.createdAt + cfg.ttl))
    ensures stamped.Some? && stamped.value.createdAt + cfg.ttl <= now ==> RevocationDue(h, cfg, authentication, now) == None
  {
  }

  /**
   * The freshness bound is inclusive and the revocation bound strict: at the instant
   * `now == issuedAt + ttl` the issued token is still accepted, yet logging out does not
   * record its revocation.
   */
  lemma AcceptedButNotRevokedAtExpiry(h: Host, cfg: JwtConfig, payload: Value, issuedAt: int)
    requires Sound(h) && JsonSafe(payload) && ValidTime(issuedAt) && cfg.revokeToken.Some?
    requires !IsRevoked(cfg.isTokenRevoked, IssueToken(h, cfg, payload, issuedAt))
    ensures var authentication := Some(BearerPrefix + IssueToken(h, cfg, payload, issuedAt));
      && GetPayload(h, cfg, authentication, issuedAt + cfg.ttl) == payload
      && RevocationDue(h, cfg, authentication, issuedAt + cfg.ttl) == None
  {
    IssuedTokenLifetime(h, cfg, payload, issuedAt, issuedAt + cfg.ttl);
    LogoutRevokesIssuedToken(h, cfg, payload, issuedAt, issuedAt + cfg.ttl);
  }

  // ---------------------------------------------------------------------------
  // Strategy dispatch

  /** What `strategy.getPayload(req)` returns. */
  function CarriedPayload(h: Host, strategy: Strategy, session: map<string, Value>,
                          authentication: Option<string>, now: int): (payload: Value)
    ensures strategy.Session? ==> payload == Lookup(session, strategy.key)
    ensures strategy.Jwt? ==> payload == GetPayload(h, strategy.config, authentication, now)
  {
    match strategy
    case Session(key) => Lookup(session, key)
    case Jwt(cfg) => GetPayload(h, cfg, authentication, now)
  }

  method SetPayload(req: Request<Auth>, strategy: Strategy, payload: Value, h: Host, now: int) returns (token: Value)
    modifies req`session
    ensures strategy.Session? ==> req.session == SessionStore(old(req.session), strategy.key, payload) && token == Undefined
    ensures strategy.Jwt? ==> req.session == old(req.session) && token == Str(IssueToken(h, strategy.config, payload, now))
  {
    match strategy
    case Session(key) =>
      SessionSetPayload(req, key, payload);
      token := Undefined;
    case Jwt(cfg) =>
      token := Str(IssueToken(h, cfg, payload, now));
  }

  method GetPayloadOf(req: Request<Auth>, strategy: Strategy, h: Host, now: int) returns (payload: Value)
    ensures payload == CarriedPayload(h, strategy, req.session, req.authentication, now)
  {
    match strategy
    case Session(key) =>
      payload := SessionGetPayload(req, key);
    case Jwt(cfg) =>
      payload := GetPayload(h, cfg, req.authentication, now);
  }

  method ClearPayload(req: Request<Auth>, strategy: Strategy, h: Host, now: int)
    modifies req`session, StrategyFrame(strategy)
    ensures strategy.Session? ==> req.session == SessionStore(old(req.session), strategy.key, Undefined)
    ensures strategy.Jwt? ==> req.session == old(req.session)
    ensures strategy.Jwt? && strategy.config.revokeToken.Some? ==>
      strategy.config.revokeToken.value.calls == old(strategy.config.revokeToken.value.calls)
        + (match RevocationDue(h, strategy.config, req.authentication, now) case Some(r) => [r] case None => [])
  {
    match strategy
    case Session(key) =>
      SessionClearPayload(req, key);
    case Jwt(cfg) =>
      JwtClearPayload(h, cfg, req.authentication, now);
  }

  // ---------------------------------------------------------------------------
  // Authentication middleware

  /**
   * One run of the middleware on a request: `login` and `logout` installed, then the
   * identity resolved from the strategy's payload, then `next()`.  The carrier is not
   * touched.
   */
  method Handle(req: Request<Auth>, auth: Auth, h: Host, now: int)
    modifies req`login, req`logout, req`user, req`steps
    ensures req.login == Some(auth) && req.logout == Some(auth)
    ensures req.user == Resolve(auth.decoder, CarriedPayload(h, auth.strategy, req.session, req.authentication, now))
    ensures req.steps == old(req.steps) + MiddlewareSteps
    ensures old(req.steps) == [] ==> NextOnceLast(req.steps)
  {
    req.login, req.logout := Some(auth), Some(auth);
    req.steps := req.steps + [InstallLogin, InstallLogout];
    var payload := GetPayloadOf(req, auth.strategy, h, now);
    req.steps := req.steps + [ReadPayload];
    if Truthy(payload) {
      req.user := OrUndefined(auth.decoder(payload));
    } else {
      req.user := Undefined;
    }
    req.steps := req.steps + [Next];
  }

  /**
   * `req.login(user)`: a truthy user becomes the identity and its encoding the carried
   * payload, and the strategy's result (the token, or undefined) is returned; a falsy
   * user changes nothing.
   */
  method Login(req: Request<Auth>, user: Value, h: Host, now: int) returns (token: Value)
    requires req.login.Some?
    modifies req`user, req`session
    ensures !Truthy(user) ==> token == Undefined && req.user == old(req.user) && req.session == old(req.session)
    ensures Truthy(user) ==> req.user == user
    ensures var strategy := req.login.value.strategy; var payload := req.login.value.encoder(user);
      Truthy(user) && strategy.Session? ==>
        token == Undefined && req.session == SessionStore(old(req.session), strategy.key, payload)
    ensures var strategy := req.login.value.strategy; var payload := req.login.value.encoder(user);
      Truthy(user) && strategy.Jwt? ==>
        token == Str(IssueToken(h, strategy.config, payload, now)) && req.session == old(req.session)
  {
    var auth := req.login.value;
    if Truthy(user) {
      req.user := user;
      token := SetPayload(req, auth.strategy, auth.encoder(user), h, now);
    } else {
      token := Undefined;
    }
  }

  /** `req.logout()`: the identity becomes undefined, then the strategy clears its carrier. */
  method Logout(req: Request<Auth>, h: Host, now: int)
    requires req.logout.Some?
    modifies req`user, req`session, StrategyFrame(req.logout.value.strategy)
    ensures req.user == Undefined
    ensures var strategy := req.logout.value.strategy;
      strategy.Session? ==> req.session == SessionStore(old(req.session), strategy.key, Undefined)
    ensures var strategy := req.logout.value.strategy;
      strategy.Jwt? ==> req.session == old(req.session)
    ensures var strategy := req.logout.value.strategy;
      strategy.Jwt? && strategy.config.revokeToken.Some? ==>
        strategy.config.revokeToken.value.calls == old(strategy.config.revokeToken.value.calls)
          + (match RevocationDue(h, strategy.config, req.authentication, now) case Some(r) => [r] case None => [])
  {
    var auth := req.logout.value;
    req.user := Undefined;
    ClearPayload(req, auth.strategy, h, now);
  }

  // ---------------------------------------------------------------------------
  // The middleware test scenarios, as clients of the methods above

  /**
   * With the session strategy: nothing resolves from an empty session; login sets the
   * user; logout clears it; the saved session entry resolves the user on the next
   * request; `login(null)` keeps it.
   */
  method SessionScenario(encoder: Value -> Value, decoder: Value -> Value, user: Value, h: Host, now: int)
    returns (resolved: Value, afterNullLogin: Value)
    requires Truthy(user) && Truthy(encoder(user)) && decoder(encoder(user)) == user
    ensures resolved == user && afterNullLogin == user
  {
    var auth := Auth(encoder, decoder, SessionStrategy(None));
    var req := new Request<Auth>(None, map[]);
    Handle(req, auth, h, now);
    assert req.user == Undefined;
    var _ := Login(req, user, h, now);
    assert req.user == user;
    var saved := Lookup(req.session, DefaultKey);
    Logout(req, h, now);
    assert req.user == Undefined;
    req.session := req.session[DefaultKey := saved];
    Handle(req, auth, h, now);
    resolved := req.user;
    var _ := Login(req, Null, h, now);
    afterNullLogin := req.user;
  }

  /**
   * With the token strategy: construction from an empty options object, a secret only
   * or a ttl only fails with the matching error; a request
   * without a bearer token resolves nothing; the token `login` returns resolves the user
   * on a later request within the ttl; `login(null)` keeps the user.
   */
  method JwtScenario(encoder: Value -> Value, decoder: Value -> Value, user: Value, h: Host,
                     ttl: int, issuedAt: int, later: int)
    returns (emptyArgs: Result<Strategy>, secretOnly: Result<Strategy>, ttlOnly: Result<Strategy>,
             before: Value, resolved: Value, afterNullLogin: Value)
    requires Sound(h) && ttl != 0 && ValidTime(issuedAt) && issuedAt >= later - ttl
    requires Truthy(user) && JsonSafe(encoder(user)) && Truthy(encoder(user)) && decoder(encoder(user)) == user
    ensures emptyArgs == Err("Secret is required") && ttlOnly == Err("Secret is required")
    ensures secretOnly == Err("TTL is required")
    ensures before == Undefined && resolved == user && afterNullLogin == user
  {
    emptyArgs := MakeJwtStrategy(None, None, None, None, None);
    secretOnly := MakeJwtStrategy(Some("a"), None, None, None, None);
    ttlOnly := MakeJwtStrategy(None, None, Some(10), None, None);
    var made := MakeJwtStrategy(Some("my secret"), None, Some(ttl), None, None);
    var auth := Auth(encoder, decoder, made.value);
    var cfg := made.value.config;

    var req := new Request<Auth>(Some("123"), map[]);
    Handle(req, auth, h, issuedAt);
    before := req.user;
    var token := Login(req, user, h, issuedAt);
    assert req.user == user;
    Logout(req, h, issuedAt);
    assert req.user == Undefined;

    var req2 := new Request<Auth>(Some(BearerPrefix + token.s), map[]);
    SetThenGetPayload(h, cfg, encoder(user), issuedAt, later);
    Handle(req2, auth, h, later);
    resolved := req2.user;
    var _ := Login(req2, Null, h, later);
    afterNullLogin := req2.user;
  }
}

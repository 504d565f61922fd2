/**
 * The slice of an Express request that the credential lifecycle reads and writes, and
 * the two request-level rules shared by both variants of the library: where a bearer
 * token is found, and how the resolved identity follows from a payload.
 */
module Http {
  import opened Wrappers
  import opened JsValue

  /** What the middleware does to a request, in order; `Next` is the call of `next()`. */
  datatype Step = InstallLogin | InstallLogout | ReadPayload | Next

  /**
   * A request.  `login` and `logout` hold what the installed closures capture (absent
   * until the middleware runs); `session` is `req.session`; `authentication` is the
   * value of `req.get('Authentication')`, fixed for the request.
   */
  class Request<H> {
    var user: Value
    var session: map<string, Value>
    const authentication: Option<string>
    var login: Option<H>
    var logout: Option<H>
    var steps: seq<Step>

    constructor (authentication: Option<string>, session: map<string, Value>)
      ensures this.authentication == authentication && this.session == session
      ensures user == Undefined && login == None && logout == None && steps == []
    {
      this.authentication := authentication;
      this.session := session;
      user := Undefined;
      login := None;
      logout := None;
      steps := [];
    }
  }

  const BearerPrefix: string := "Bearer "

  /**
   * `authentication?.startsWith?.('Bearer ')` followed by `replace(/^Bearer /, '')`:
   * the token is what follows the case-sensitive prefix.
   */
  function BearerToken(authentication: Option<string>): (token: Option<string>)
    ensures token.Some? <==> authentication.Some? && BearerPrefix <= authentication.value
    ensures token.Some? ==> authentication.value == BearerPrefix + token.value
  {
    if authentication.Some? && BearerPrefix <= authentication.value
    then Some(authentication.value[|BearerPrefix|..])
    else None
  }

  lemma BearerTokenOfPrefixed(token: string)
    ensures BearerToken(Some(BearerPrefix + token)) == Some(token)
  {
    assert (BearerPrefix + token)[|BearerPrefix|..] == token;
  }

  /**
   * `if (payload) req.user = (await decoder(payload)) || undefined; else req.user = undefined`:
   * the identity is defined exactly when the payload is truthy and decodes to a truthy
   * user, and it is then that user.
   */
  function Resolve(decoder: Value -> Value, payload: Value): (user: Value)
    ensures Truthy(user) <==> Truthy(payload) && Truthy(decoder(payload))
    ensures Truthy(user) ==> user == decoder(payload)
    ensures !Truthy(user) ==> user == Undefined
  {
    if Truthy(payload) then OrUndefined(decoder(payload)) else Undefined
  }

  /** `next()` was called exactly once, as the last step. */
  predicate NextOnceLast(steps: seq<Step>) {
    && |steps| > 0
    && steps[|steps| - 1] == Next
    && forall i :: 0 <= i < |steps| - 1 ==> steps[i] != Next
  }

  /** The step sequence of one middleware run: closures installed, payload read, then `next()`. */
  const MiddlewareSteps: seq<Step> := [InstallLogin, InstallLogout, ReadPayload, Next]
}

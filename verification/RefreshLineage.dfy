/** Session refresh (internal/jwt/handler.go, internal/authmiddleware/serverroute_verify.go): what can
    grow out of one login when every request may refresh the cookie. */
module RefreshLineage {
  import opened Text
  import opened Keys
  import opened Signer

  const SESSION := "session"

  datatype Policy = Policy(enableRefresh: bool, window: int, horizon: int)

  predicate ShouldRefreshToken(policy: Policy, claims: Claims, now: int) {
    && policy.enableRefresh
    && claims.expiresAt.Some? && claims.issuedAt.Some? && !claims.skipRefresh
    && var remaining := claims.expiresAt.value - now;
    0 < remaining <= policy.window
  }

  /** None stands for any error; `signerReady` is false when no key is past its cool-off. */
  function RefreshToken(policy: Policy, config: Config, claims: Claims, now: int, signerReady: bool): Option<Claims>
    requires claims.issuedAt.Some?
  {
    if now - claims.issuedAt.value >= policy.horizon || !signerReady then None
    else Some(Minted(config, claims.id, false, claims.issuedAt.value, now))
  }

  function UpdateSkipRefreshToken(config: Config, claims: Claims, now: int, signerReady: bool): Option<Claims> {
    if signerReady then Some(Minted(config, claims.id, true, now, now)) else None
  }

  /** The outcome of asking whether the user may still reach the workspace. */
  datatype Review = ReviewFailed | Denied | Allowed

  datatype Request = Request(path: string, domain: string, now: int, review: Review, signerReady: bool)

  datatype Cookie = Untouched | Cleared | SetTo(claims: Claims)

  datatype Response = Response(status: int, cookie: Cookie)

  /** `cookie` holds the claims of the cookie's token when there is one and it validates. */
  function Verify(policy: Policy, config: Config, r: Request, cookie: Option<Claims>): Response {
    if r.path == "" || r.domain == "" then Response(400, Untouched)
    else if cookie.None? || cookie.value.id.tokenType != SESSION then Response(401, Untouched)
    else
      var claims := cookie.value;
      if claims.id.path != "" && !(claims.id.path <= r.path) then Response(403, Untouched)
      else if claims.id.domain != r.domain then Response(403, Untouched)
      else if !ShouldRefreshToken(policy, claims, r.now) then Response(200, Untouched)
      else
        match r.review
        case Denied => Response(403, Cleared)
        case ReviewFailed => Response(200, NewCookie(UpdateSkipRefreshToken(config, claims, r.now, r.signerReady)))
        case Allowed => Response(200, NewCookie(RefreshToken(policy, config, claims, r.now, r.signerReady)))
  }

  function NewCookie(token: Option<Claims>): Cookie {
    if token.Some? then SetTo(token.value) else Untouched
  }

  predicate Addressed(r: Request) {
    r.path != "" && r.domain != ""
  }

  predicate HasSession(token: Option<Claims>) {
    token.Some? && token.value.id.tokenType == SESSION
  }

  /** The token covers the requested path and belongs to the requested domain. */
  predicate Covers(id: Identity, r: Request) {
    (id.path == "" || id.path <= r.path) && id.domain == r.domain
  }

  /** The token is in the last stretch of its life and may still be renewed. */
  predicate InWindow(policy: Policy, claims: Claims, now: int) {
    && policy.enableRefresh && !claims.skipRefresh && claims.issuedAt.Some? && claims.expiresAt.Some?
    && claims.expiresAt.value - policy.window <= now < claims.expiresAt.value
  }

  /** The response being written by `handleVerify`. */
  class ResponseWriter {
    var status: int
    var cookie: Cookie

    constructor ()
      ensures status == 0 && cookie == Untouched
    {
      status, cookie := 0, Untouched;
    }

    method HandleVerify(policy: Policy, config: Config, r: Request, token: Option<Claims>)
      requires status == 0 && cookie == Untouched
      modifies this
      ensures Response(status, cookie) == Verify(policy, config, r, token)
      ensures status == 400 <==> !Addressed(r)
      ensures status == 401 <==> Addressed(r) && !HasSession(token)
      ensures status == 403 <==>
                && Addressed(r) && HasSession(token)
                && (!Covers(token.value.id, r) || (InWindow(policy, token.value, r.now) && r.review == Denied))
      ensures status == 200 <==>
                && Addressed(r) && HasSession(token) && Covers(token.value.id, r)
                && !(InWindow(policy, token.value, r.now) && r.review == Denied)
      ensures cookie == Cleared <==>
                && Addressed(r) && HasSession(token) && Covers(token.value.id, r)
                && InWindow(policy, token.value, r.now) && r.review == Denied
      ensures cookie.SetTo? <==>
                && Addressed(r) && HasSession(token) && Covers(token.value.id, r)
                && InWindow(policy, token.value, r.now) && r.signerReady
                && (r.review == ReviewFailed || (r.review == Allowed && r.now < token.value.issuedAt.value + policy.horizon))
      ensures cookie.SetTo? ==>
                && cookie.claims.id == token.value.id && cookie.claims.skipRefresh == (r.review == ReviewFailed)
                && cookie.claims.issuedAt == (if r.review == Allowed then token.value.issuedAt else Some(r.now))
                && cookie.claims.notBefore == Some(r.now) && cookie.claims.expiresAt == Some(r.now + config.expiration)
                && cookie.claims.issuer == config.issuer && cookie.claims.audience == config.audience
    {
      if r.path == "" {
        status := 400;
        return;
      }
      if r.domain == "" {
        status := 400;
        return;
      }
      if token.None? {
        status := 401;
        return;
      }
      var claims := token.value;
      if claims.id.tokenType != SESSION {
        status := 401;
        return;
      }
      if claims.id.path != "" && r.path != "" {
        if !(claims.id.path <= r.path) {
          status := 403;
          return;
        }
      }
      if claims.id.domain != r.domain {
        status := 403;
        return;
      }
      if ShouldRefreshToken(policy, claims, r.now) {
        match r.review
        case ReviewFailed =>
          var newToken := UpdateSkipRefreshToken(config, claims, r.now, r.signerReady);
          if newToken.Some? {
            cookie := SetTo(newToken.value);
          }
        case Denied =>
          cookie := Cleared;
          status := 403;
          return;
        case Allowed =>
          var newToken := RefreshToken(policy, config, claims, r.now, r.signerReady);
          if newToken.Some? {
            cookie := SetTo(newToken.value);
          }
      }
      status := 200;
    }
  }

  /** The cookie's token is accepted at `now` by a signer that holds its key. */
  predicate Live(config: Config, claims: Claims, now: int) {
    && !Expired(claims, now)
    && (claims.notBefore.Some? ==> now >= claims.notBefore.value - LEEWAY)
    && claims.issuer == config.issuer && claims.audience == config.audience
  }

  lemma {:induction false} LiveIsValidated(config: Config, token: Token, keys: map<string, SigningKey>, now: int)
    requires token.kid != "" && token.kid in keys && keys[token.kid] == token.key
    ensures Validate(keys, config, token, now).Accepted? <==> Live(config, token.claims, now)
  {
  }

  /** One request on a live token that hands out a new one. */
  ghost predicate Derives(policy: Policy, config: Config, parent: Claims, r: Request, child: Claims) {
    Live(config, parent, r.now) && Verify(policy, config, r, Some(parent)).cookie == SetTo(child)
  }

  /** A branch of the tree of tokens that grows out of `tokens[0]`: requests may come in any order, and
      any token of the tree may be used again, so every token of the tree ends such a branch. */
  ghost predicate Branch(policy: Policy, config: Config, tokens: seq<Claims>, requests: seq<Request>) {
    && |tokens| == |requests| + 1
    && forall i :: 0 <= i < |requests| ==> Derives(policy, config, tokens[i], requests[i], tokens[i + 1])
  }

  /** A login at `t0`. */
  function Login(config: Config, id: Identity, t0: int): Claims {
    Minted(config, id, false, t0, t0)
  }

  /** The configuration check at start-up. */
  predicate Configured(policy: Policy, config: Config) {
    policy.window <= config.expiration <= policy.horizon && config.expiration > 0
  }

  /** What holds of every token that descends from one login. */
  ghost predicate Bounded(policy: Policy, config: Config, id: Identity, t0: int, c: Claims) {
    && c.id == id && c.issuedAt.Some? && c.expiresAt.Some?
    && (!c.skipRefresh ==> c.issuedAt.value == t0 && c.expiresAt.value < t0 + policy.horizon + config.expiration)
    && (c.skipRefresh ==> c.expiresAt.value < t0 + policy.horizon + 2 * config.expiration)
  }

  lemma {:induction false} DerivedBounded(policy: Policy, config: Config, id: Identity, t0: int, parent: Claims, r: Request, child: Claims)
    requires Configured(policy, config) && Bounded(policy, config, id, t0, parent) && Derives(policy, config, parent, r, child)
    ensures Bounded(policy, config, id, t0, child)
    ensures !parent.skipRefresh
    ensures !child.skipRefresh ==> r.review == Allowed && r.now < t0 + policy.horizon
    ensures child.skipRefresh ==> r.review == ReviewFailed
  {
  }

  /** The whole tree of one login: identity, path, domain and type never change, refreshable tokens
      keep the login time and end within a bounded session. */
  lemma {:induction false} LineageBounded(policy: Policy, config: Config, id: Identity, t0: int,
                                          tokens: seq<Claims>, requests: seq<Request>, i: nat)
    requires Configured(policy, config) && Branch(policy, config, tokens, requests) && i < |tokens|
    requires tokens[0] == Login(config, id, t0)
    ensures Bounded(policy, config, id, t0, tokens[i])
    decreases i
  {
    hide Bounded, Derives;
    if i == 0 {
      LoginBounded(policy, config, id, t0);
    } else {
      LineageBounded(policy, config, id, t0, tokens, requests, i - 1);
      DerivedBounded(policy, config, id, t0, tokens[i - 1], requests[i - 1], tokens[i]);
    }
  }

  lemma {:induction false} LoginBounded(policy: Policy, config: Config, id: Identity, t0: int)
    requires Configured(policy, config)
    ensures Bounded(policy, config, id, t0, Login(config, id, t0))
  {
  }

  /** Only the last token of a branch can be a skip-refresh one, and every refreshable descendant was
      handed out after an allowed review within the horizon. */
  lemma {:induction false} LineageReviewed(policy: Policy, config: Config, id: Identity, t0: int,
                                           tokens: seq<Claims>, requests: seq<Request>, i: nat)
    requires Configured(policy, config) && Branch(policy, config, tokens, requests) && i < |requests|
    requires tokens[0] == Login(config, id, t0)
    ensures !tokens[i].skipRefresh
    ensures !tokens[i + 1].skipRefresh ==> requests[i].review == Allowed && requests[i].now < t0 + policy.horizon
    ensures tokens[i + 1].skipRefresh ==> requests[i].review == ReviewFailed && i + 1 == |requests|
  {
    hide Bounded, Derives;
    LineageBounded(policy, config, id, t0, tokens, requests, i);
    DerivedBounded(policy, config, id, t0, tokens[i], requests[i], tokens[i + 1]);
    if i + 1 < |requests| {
      LineageBounded(policy, config, id, t0, tokens, requests, i + 1);
      DerivedBounded(policy, config, id, t0, tokens[i + 1], requests[i + 1], tokens[i + 2]);
    }
  }

  /** Two lifetimes and a leeway past the horizon no token of the login is accepted any more. */
  lemma {:induction false} SessionEnds(policy: Policy, config: Config, id: Identity, t0: int,
                                       tokens: seq<Claims>, requests: seq<Request>, i: nat, now: int)
    requires Configured(policy, config) && Branch(policy, config, tokens, requests) && i < |tokens|
    requires tokens[0] == Login(config, id, t0)
    requires now >= t0 + policy.horizon + 2 * config.expiration + LEEWAY
    ensures !Live(config, tokens[i], now)
  {
    LineageBounded(policy, config, id, t0, tokens, requests, i);
  }

  /** The comment on `ShouldRefreshToken` promises a last skip-refresh token beyond the horizon. The
      code hands one out there exactly when the access review could not be made. */
  lemma {:induction false} BeyondHorizon(policy: Policy, config: Config, claims: Claims, r: Request)
    requires ShouldRefreshToken(policy, claims, r.now) && r.now - claims.issuedAt.value >= policy.horizon
    requires Verify(policy, config, r, Some(claims)).status == 200
    ensures Verify(policy, config, r, Some(claims)).cookie.SetTo? <==> r.review == ReviewFailed && r.signerReady
  {
  }
}

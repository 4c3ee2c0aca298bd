/** Token signing and validation with several keys (internal/jwt/standard_signer.go, types.go).
    Times are integer nanoseconds of one clock. A token carries the key that signed it, which stands
    for an unforgeable HS384 signature. */
module Signer {
  import opened Text
  import opened Keys

  const SECOND: int := 1_000_000_000
  const LEEWAY: int := 5 * SECOND

  datatype Identity = Identity(user: string, groups: seq<string>, uid: string, extra: map<string, seq<string>>,
                               path: string, domain: string, tokenType: string)

  datatype Claims = Claims(id: Identity, skipRefresh: bool,
                           issuedAt: Option<int>, expiresAt: Option<int>, notBefore: Option<int>,
                           issuer: string, audience: string)

  datatype Token = Token(kid: string, key: SigningKey, claims: Claims)

  datatype Config = Config(issuer: string, audience: string, expiration: int, newKeyUseDelay: int)

  /** The part of a signer that key updates replace. */
  datatype State = State(keys: map<string, SigningKey>, added: map<string, int>, latestKid: string)

  const NO_KEYS := State(map[], map[], "")

  /** A key already held keeps the time it was first seen; a new one starts its cool-off now. */
  function Updated(st: State, keys: map<string, SigningKey>, latestKid: string, now: int): State {
    State(keys, map kid | kid in keys :: if kid in st.added then st.added[kid] else now, latestKid)
  }

  predicate Cooled(st: State, delay: int, now: int, kid: string) {
    kid in st.added && now - st.added[kid] >= delay
  }

  /** `kid` is the greatest cooled-off kid in string order, or "" when there is none. */
  ghost predicate IsUsable(st: State, delay: int, now: int, kid: string) {
    && (kid != "" ==> Cooled(st, delay, now, kid))
    && forall k :: Cooled(st, delay, now, k) ==> k == kid || Less(k, kid)
  }

  lemma {:induction false} UsableUnique(st: State, delay: int, now: int, a: string, b: string)
    requires IsUsable(st, delay, now, a) && IsUsable(st, delay, now, b)
    ensures a == b
  {
    LessTotal(a, b);
  }

  /** The claims of a token minted at `now` for one identity. */
  function Minted(config: Config, id: Identity, skipRefresh: bool, issuedAt: int, now: int): Claims {
    Claims(id, skipRefresh, Some(issuedAt), Some(now + config.expiration), Some(now), config.issuer, config.audience)
  }

  datatype Rejection = TokenExpired | InvalidSignature | InvalidToken
  datatype Validation = Accepted(claims: Claims) | Rejected(reason: Rejection)

  predicate Expired(claims: Claims, now: int) {
    claims.expiresAt.Some? && now >= claims.expiresAt.value + LEEWAY
  }

  predicate TooEarly(claims: Claims, now: int) {
    claims.notBefore.Some? && now < claims.notBefore.value - LEEWAY
  }

  /** The token names a key that is held. */
  predicate KnownKid(keys: map<string, SigningKey>, token: Token) {
    token.kid != "" && token.kid in keys
  }

  function Validate(keys: map<string, SigningKey>, config: Config, token: Token, now: int): Validation {
    var claims := token.claims;
    if token.kid == "" || token.kid !in keys then Rejected(InvalidToken)
    else if keys[token.kid] != token.key then Rejected(InvalidSignature)
    else if Expired(claims, now) then Rejected(TokenExpired)
    else if TooEarly(claims, now) then Rejected(InvalidToken)
    else if claims.issuer != config.issuer || claims.audience != config.audience then Rejected(InvalidToken)
    else Accepted(claims)
  }

  class StandardSigner {
    var signingKeys: map<string, SigningKey>
    var keyAddedTimes: map<string, int>
    var latestKid: string
    const config: Config

    ghost predicate Valid()
      reads this
    {
      signingKeys.Keys == keyAddedTimes.Keys
    }

    ghost function Abstract(): State
      reads this
    {
      State(signingKeys, keyAddedTimes, latestKid)
    }

    constructor (config: Config)
      ensures Valid() && Abstract() == NO_KEYS && this.config == config
    {
      signingKeys, keyAddedTimes, latestKid := map[], map[], "";
      this.config := config;
    }

    method UpdateKeys(keys: map<string, SigningKey>, latest: string, now: int) returns (ok: bool)
      requires Valid()
      modifies this
      ensures Valid()
      ensures ok <==> latest in keys
      ensures Abstract() == if ok then Updated(old(Abstract()), keys, latest, now) else old(Abstract())
    {
      if |keys| == 0 {
        return false;
      }
      if latest !in keys {
        return false;
      }
      var newKeyAddedTimes: map<string, int> := map[];
      var rest := keys.Keys;
      while rest != {}
        invariant rest <= keys.Keys
        invariant newKeyAddedTimes.Keys == keys.Keys - rest
        invariant forall kid :: kid in newKeyAddedTimes ==>
                    newKeyAddedTimes[kid] == if kid in keyAddedTimes then keyAddedTimes[kid] else now
        decreases rest
      {
        var kid :| kid in rest;
        rest := rest - {kid};
        newKeyAddedTimes := newKeyAddedTimes[kid := if kid in keyAddedTimes then keyAddedTimes[kid] else now];
      }
      signingKeys, keyAddedTimes, latestKid := keys, newKeyAddedTimes, latest;
      return true;
    }

    method GetLatestKidAndKeyWithCoolOff(now: int) returns (kid: string, key: SigningKey)
      requires Valid()
      ensures IsUsable(Abstract(), config.newKeyUseDelay, now, kid)
      ensures kid != "" ==> kid in signingKeys && key == signingKeys[kid]
    {
      kid := "";
      var rest := keyAddedTimes.Keys;
      while rest != {}
        invariant rest <= keyAddedTimes.Keys
        invariant kid != "" ==> Cooled(Abstract(), config.newKeyUseDelay, now, kid)
        invariant forall k :: Cooled(Abstract(), config.newKeyUseDelay, now, k) && k !in rest ==> k == kid || Less(k, kid)
        decreases rest
      {
        var k :| k in rest;
        rest := rest - {k};
        if now - keyAddedTimes[k] >= config.newKeyUseDelay && (kid == "" || Less(kid, k)) {
          forall o | Less(o, kid) && Less(kid, k) ensures Less(o, k) { LessTransitive(o, kid, k); }
          kid := k;
        } else {
          LessTotal(k, kid);
        }
      }
      key := if kid == "" then [] else signingKeys[kid];
    }

    /** `generateTokenWithIssuedAt`; None when no key is past its cool-off. */
    method GenerateTokenWithIssuedAt(id: Identity, skipRefresh: bool, issuedAt: int, now: int) returns (r: Option<Token>)
      requires Valid()
      ensures r.None? ==> IsUsable(Abstract(), config.newKeyUseDelay, now, "")
      ensures r.Some? ==>
                && r.value.kid != "" && IsUsable(Abstract(), config.newKeyUseDelay, now, r.value.kid)
                && r.value.kid in signingKeys && r.value.key == signingKeys[r.value.kid]
                && r.value.claims == Minted(config, id, skipRefresh, issuedAt, now)
    {
      var kid, key := GetLatestKidAndKeyWithCoolOff(now);
      if kid == "" {
        return None;
      }
      return Some(Token(kid, key, Minted(config, id, skipRefresh, issuedAt, now)));
    }

    /** The key function of the parser: None for a missing or unknown kid. */
    method LookupKey(kid: string) returns (key: Option<SigningKey>)
      ensures key == if kid != "" && kid in signingKeys then Some(signingKeys[kid]) else None
    {
      if kid == "" {
        return None;
      }
      if kid !in signingKeys {
        return None;
      }
      return Some(signingKeys[kid]);
    }

    /** The parser looks up the key, checks the signature and collects what is wrong with the claims;
        of several errors in the claims an expired token is the one reported. */
    method ValidateToken(token: Token, now: int) returns (r: Validation)
      ensures r.Accepted? <==>
                && KnownKid(signingKeys, token) && signingKeys[token.kid] == token.key
                && !Expired(token.claims, now) && !TooEarly(token.claims, now)
                && token.claims.issuer == config.issuer && token.claims.audience == config.audience
      ensures r.Accepted? ==> r.claims == token.claims
      ensures r == Rejected(InvalidSignature) <==> KnownKid(signingKeys, token) && signingKeys[token.kid] != token.key
      ensures r == Rejected(TokenExpired) <==>
                KnownKid(signingKeys, token) && signingKeys[token.kid] == token.key && Expired(token.claims, now)
      ensures r == Validate(signingKeys, config, token, now)
    {
      var key := LookupKey(token.kid);
      if key.None? {
        return Rejected(InvalidToken);
      }
      if key.value != token.key {
        return Rejected(InvalidSignature);
      }
      var claims, errors := token.claims, [];
      if claims.expiresAt.Some? && claims.expiresAt.value + LEEWAY <= now {
        errors := errors + [TokenExpired];
      }
      if claims.notBefore.Some? && now < claims.notBefore.value - LEEWAY {
        errors := errors + [InvalidToken];
      }
      if claims.audience != config.audience {
        errors := errors + [InvalidToken];
      }
      if claims.issuer != config.issuer {
        errors := errors + [InvalidToken];
      }
      if |errors| > 0 {
        if TokenExpired in errors {
          return Rejected(TokenExpired);
        }
        return Rejected(InvalidToken);
      }
      return Accepted(claims);
    }
  }
}

/**
 * The session authority: issues session tokens, caches their metadata under
 * `session:<jti>` with a TTL a little longer than the token's lifetime,
 * verifies them (codec check, then the revocation mark) and revokes them by
 * writing the two revocation fields.
 */
module Sessions {
  import opened Results
  import opened Js
  import opened Exceptions
  import opened RevokeReasons
  import Jwt
  import Decimal
  import Redis

  const InvalidSessionMessage := "Invalid or expired session token"
  const InvalidStructureMessage := "Invalid JWT payload structure"
  /** What reading `payload.jti` throws when the codec could not decode the token. */
  const NoPayloadMessage := "Cannot read properties of null (reading 'jti')"

  const RevokeTimestampField := "revoke.timestamp"
  const RevokeReasonField := "revoke.reason"

  /**
   * The service's settings: the session secret and lifetime the codec signs
   * with, the codec's reading of lifetimes, the cache's extra TTL in seconds
   * and the token fingerprint function (bcrypt). The threshold is whatever
   * integer the environment gives: nothing bounds it below, and a negative one
   * makes the entry expire before the token does.
   */
  datatype SessionConfig = SessionConfig(
    secret: string,
    expiresIn: string,
    timespan: string -> Option<int>,
    threshold: int,
    hashToken: Jwt.Token -> string)

  /** The cache key of a token: `session:${payload.jti}`. */
  function SessionKey(jti: Option<string>): string {
    "session:" + OrUndefined(jti)
  }

  function RevokedMessage(reason: Option<string>): string {
    "This session has been revoked. Reason: '" + OrNull(reason) + "'"
  }

  /** The structural check on a decoded payload before anything is cached. */
  predicate WellFormed(p: Jwt.Payload) {
    Truthy(p.claims.jti) && Truthy(p.claims.sub) && TruthyNumber(p.iat) && TruthyNumber(p.exp)
  }

  /** The metadata hash written at issuance. */
  function SessionRecord(p: Jwt.Payload, ipAddress: Option<string>, userAgent: Option<string>, hashedToken: string): map<string, string>
    requires WellFormed(p)
  {
    map[
      "userId" := p.claims.sub.value,
      "ipAddress" := OrElse(ipAddress, ""),
      "userAgent" := OrElse(userAgent, ""),
      "hashedToken" := hashedToken,
      "expiredAt" := Decimal.IntToString(p.exp.value)]
  }

  /** The cache entry's TTL: the token's lifetime plus the threshold. */
  function SessionTtl(p: Jwt.Payload, threshold: int): int
    requires WellFormed(p)
  {
    p.exp.value - p.iat.value + threshold
  }

  /** `cacheSessionToken`: the store after caching `token`, or the error thrown (and the store untouched). */
  function Cache(s: Redis.Store, config: SessionConfig, token: Jwt.Token, ipAddress: Option<string>, userAgent: Option<string>): (r: Result<Redis.Store, Thrown>)
    requires s.Valid()
    ensures r.Ok? ==> r.value.Valid()
  {
    match Jwt.Decode(token)
    case None => Err(ErrorObject(InvalidStructureMessage))
    case Some(p) =>
      if !WellFormed(p) then Err(ErrorObject(InvalidStructureMessage))
      else
        var key := SessionKey(p.claims.jti);
        Ok(s.HMSet(key, SessionRecord(p, ipAddress, userAgent, config.hashToken(token)))
            .Expire(key, SessionTtl(p, config.threshold)))
  }

  /** The payload `generateToken` signs. */
  function SessionClaims(userId: string, jti: string): Jwt.Claims {
    Jwt.Claims(Some(userId), Some(jti), None)
  }

  /** `generateToken` with `jti` as the fresh identifier: the token and the store after caching it. */
  function Generate(s: Redis.Store, config: SessionConfig, userId: string, ipAddress: string, userAgent: string, jti: string): (r: Result<(Jwt.Token, Redis.Store), Thrown>)
    requires s.Valid()
    ensures r.Ok? ==> r.value.1.Valid()
  {
    match Jwt.Sign(SessionClaims(userId, jti), config.secret, config.expiresIn, Jwt.Env(s.now, config.timespan))
    case Err(e) => Err(ErrorObject(Jwt.Message(e)))
    case Ok(token) =>
      match Cache(s, config, token, Some(ipAddress), Some(userAgent))
      case Err(e) => Err(e)
      case Ok(s') => Ok((token, s'))
  }

  /**
   * `verifyToken`: the payload of a token signed with the session secret,
   * not yet expired and not marked revoked in the cache; every failure is
   * Unauthorized.
   */
  function Verified(s: Redis.Store, config: SessionConfig, token: Jwt.Token): (r: Result<Jwt.Payload, Thrown>)
    ensures r.Ok? ==> token.Signed? && token.secret == config.secret && r.value == token.payload
    ensures r.Ok? ==> !Jwt.IsExpired(r.value, s.now) && !Truthy(s.HGet(SessionKey(r.value.claims.jti), RevokeTimestampField))
    ensures r.Err? ==> r.error.HttpException? && r.error.status == 401
  {
    match Jwt.Verify(token, config.secret, s.now)
    case Err(_) => Err(Unauthorized(InvalidSessionMessage))
    case Ok(p) =>
      var key := SessionKey(p.claims.jti);
      if Truthy(s.HGet(key, RevokeTimestampField)) then
        Err(Unauthorized(RevokedMessage(s.HGet(key, RevokeReasonField))))
      else
        Ok(p)
  }

  /** `revoke`: the store with the two revocation fields set, or the error thrown. */
  function Revoked(s: Redis.Store, token: Jwt.Token, reason: RevokeReason): (r: Result<Redis.Store, Thrown>)
    requires s.Valid()
    ensures r.Ok? ==> r.value.Valid()
  {
    match Jwt.Decode(token)
    case None => Err(ErrorObject(NoPayloadMessage))
    case Some(p) =>
      var key := SessionKey(p.claims.jti);
      Ok(s.HSet(key, RevokeTimestampField, Decimal.IntToString(s.now))
          .HSet(key, RevokeReasonField, Text(reason)))
  }

  // ---------------------------------------------------------------------------
  // Properties of the protocol
  // ---------------------------------------------------------------------------

  /**
   * `generateToken` signs exactly `{sub: userId, jti}`, stamped now with the
   * configured lifetime, and caches it under `session:<jti>` with a TTL of that
   * lifetime plus the threshold (a TTL that is not positive deletes the entry).
   */
  lemma GenerateSignsAndCaches(s: Redis.Store, config: SessionConfig, userId: string, ipAddress: string, userAgent: string, jti: string)
    requires s.Valid()
    requires Generate(s, config, userId, ipAddress, userAgent, jti).Ok?
    ensures config.timespan(config.expiresIn).Some?
    ensures var (token, s') := Generate(s, config, userId, ipAddress, userAgent, jti).value;
      var lifetime := config.timespan(config.expiresIn).value;
      var key := SessionKey(Some(jti));
      && token == Jwt.Signed(Jwt.Payload(SessionClaims(userId, jti), Some(s.now), Some(s.now + lifetime)), config.secret)
      && (lifetime + config.threshold > 0 ==>
        && s'.HGet(key, "userId") == Some(userId)
        && s'.HGet(key, "ipAddress") == Some(ipAddress)
        && s'.HGet(key, "userAgent") == Some(userAgent)
        && s'.HGet(key, "hashedToken") == Some(config.hashToken(token))
        && s'.deadlines[key] == s.now + lifetime + config.threshold)
      && (lifetime + config.threshold <= 0 ==> key !in s'.hashes)
  {
    var token := Generate(s, config, userId, ipAddress, userAgent, jti).value.0;
    var p := Jwt.Decode(token).value;
    var record := SessionRecord(p, Some(ipAddress), Some(userAgent), config.hashToken(token));
    Redis.HMSetThenExpire(s, SessionKey(Some(jti)), record, SessionTtl(p, config.threshold));
    assert "userId" in record && "ipAddress" in record && "userAgent" in record && "hashedToken" in record;
  }

  /** Issuing succeeds whenever the secret and lifetime are usable and the payload is complete: a non-empty user id and identifier, a clock past zero, a positive lifetime. */
  lemma GenerateSucceeds(s: Redis.Store, config: SessionConfig, userId: string, ipAddress: string, userAgent: string, jti: string)
    requires s.Valid()
    requires userId != "" && jti != "" && config.secret != "" && s.now > 0
    requires config.timespan(config.expiresIn).Some? && config.timespan(config.expiresIn).value > 0
    ensures Generate(s, config, userId, ipAddress, userAgent, jti).Ok?
  {
  }

  /**
   * The cached record: `userId` is `sub`, a missing IP address or user agent
   * reads as '', and `expiredAt` is `exp` in decimal, so parsing it gives `exp`
   * back; `hashedToken` is the token's fingerprint. Its TTL is
   * `exp - iat + threshold`, so it lives at least as long as the token exactly
   * when the threshold is not negative.
   */
  lemma CachedRecord(s: Redis.Store, config: SessionConfig, token: Jwt.Token, ipAddress: Option<string>, userAgent: Option<string>)
    requires s.Valid() && Jwt.Decode(token).Some? && WellFormed(Jwt.Decode(token).value)
    requires Jwt.Decode(token).value.exp.value > 0
    ensures var p := Jwt.Decode(token).value;
      var key := SessionKey(p.claims.jti);
      var ttl := p.exp.value - p.iat.value + config.threshold;
      var r := Cache(s, config, token, ipAddress, userAgent);
      && r.Ok?
      && (ttl > 0 ==>
        && r.value.HGet(key, "userId") == p.claims.sub
        && r.value.HGet(key, "ipAddress") == Some(if ipAddress.Some? then ipAddress.value else "")
        && r.value.HGet(key, "userAgent") == Some(if userAgent.Some? then userAgent.value else "")
        && r.value.HGet(key, "expiredAt").Some?
        && Decimal.AllDigits(r.value.HGet(key, "expiredAt").value)
        && Decimal.ParseDigits(r.value.HGet(key, "expiredAt").value) == p.exp.value
        && r.value.HGet(key, "hashedToken") == Some(config.hashToken(token))
        && r.value.deadlines[key] == s.now + ttl
        && (r.value.deadlines[key] >= s.now + (p.exp.value - p.iat.value) <==> config.threshold >= 0))
      && (ttl <= 0 ==> key !in r.value.hashes)
  {
    var p := Jwt.Decode(token).value;
    var key := SessionKey(p.claims.jti);
    var record := SessionRecord(p, ipAddress, userAgent, config.hashToken(token));
    Redis.HMSetThenExpire(s, key, record, SessionTtl(p, config.threshold));
    assert record["userId"] == p.claims.sub.value;
    assert record["ipAddress"] == OrElse(ipAddress, "");
    assert record["userAgent"] == OrElse(userAgent, "");
    assert record["hashedToken"] == config.hashToken(token);
    assert record["expiredAt"] == Decimal.NatToString(p.exp.value);
    Decimal.ParseNatToString(p.exp.value);
  }

  /** A payload missing `jti`, `sub`, `iat` or `exp` (or with a falsy one) is refused and nothing is written. */
  lemma CacheRefusesIncompletePayload(s: Redis.Store, config: SessionConfig, token: Jwt.Token, ipAddress: Option<string>, userAgent: Option<string>)
    requires s.Valid()
    requires Jwt.Decode(token).None? || !WellFormed(Jwt.Decode(token).value)
    ensures Cache(s, config, token, ipAddress, userAgent) == Err(ErrorObject(InvalidStructureMessage))
  {
  }

  /**
   * `verifyToken` fails with the revocation message exactly when the codec
   * accepts the token and `session:<jti>` has a `revoke.timestamp`; every codec
   * failure becomes the one generic Unauthorized error; otherwise the payload is
   * returned, even when the cache entry is missing.
   */
  lemma VerifiedOutcomes(s: Redis.Store, config: SessionConfig, token: Jwt.Token)
    ensures Jwt.Verify(token, config.secret, s.now).Err? ==>
      Verified(s, config, token) == Err(Unauthorized(InvalidSessionMessage))
    ensures Jwt.Verify(token, config.secret, s.now).Ok? ==>
      var p := Jwt.Verify(token, config.secret, s.now).value;
      var key := SessionKey(p.claims.jti);
      && (Verified(s, config, token).Ok? <==> !Truthy(s.HGet(key, RevokeTimestampField)))
      && (Verified(s, config, token).Ok? ==> Verified(s, config, token).value == p)
      && (key !in s.hashes ==> Verified(s, config, token) == Ok(p))
  {
  }

  /** `revoke` writes only the two revocation fields of `session:<jti>`: every other field, every other key and every TTL stays. */
  lemma RevokeTouchesOnlyRevokeFields(s: Redis.Store, token: Jwt.Token, reason: RevokeReason)
    requires s.Valid() && Jwt.Decode(token).Some?
    ensures var key := SessionKey(Jwt.Decode(token).value.claims.jti);
      var r := Revoked(s, token, reason);
      && r.Ok?
      && r.value.HGet(key, RevokeReasonField) == Some(Text(reason))
      && Truthy(r.value.HGet(key, RevokeTimestampField))
      && (forall f :: f != RevokeTimestampField && f != RevokeReasonField ==> r.value.HGet(key, f) == s.HGet(key, f))
      && (forall k :: k != key ==> (k in r.value.hashes <==> k in s.hashes))
      && (forall k :: k != key && k in s.hashes ==> r.value.hashes[k] == s.hashes[k])
      && r.value.deadlines == s.deadlines
      && r.value.now == s.now
  {
  }

  /** Revoking a token whose entry has already gone creates an entry holding just the two revocation fields, with no TTL. */
  lemma RevokeMissingEntry(s: Redis.Store, token: Jwt.Token, reason: RevokeReason)
    requires s.Valid() && Jwt.Decode(token).Some?
    requires SessionKey(Jwt.Decode(token).value.claims.jti) !in s.hashes
    ensures var key := SessionKey(Jwt.Decode(token).value.claims.jti);
      var r := Revoked(s, token, reason);
      && r.Ok?
      && r.value.hashes[key] == map[RevokeTimestampField := Decimal.IntToString(s.now), RevokeReasonField := Text(reason)]
      && key !in r.value.deadlines
  {
  }

  /** A token that cannot be decoded cannot be revoked: the error propagates and nothing is written. */
  lemma RevokeUndecodable(s: Redis.Store, token: Jwt.Token, reason: RevokeReason)
    requires s.Valid() && Jwt.Decode(token).None?
    ensures Revoked(s, token, reason) == Err(ErrorObject(NoPayloadMessage))
  {
  }

  /** After `revoke(t, r)`, verifying a codec-valid `t` always fails, naming `r`. */
  lemma RevokedTokenIsRejected(s: Redis.Store, config: SessionConfig, token: Jwt.Token, reason: RevokeReason)
    requires s.Valid() && Jwt.Verify(token, config.secret, s.now).Ok?
    ensures Revoked(s, token, reason).Ok?
    ensures Verified(Revoked(s, token, reason).value, config, token)
      == Err(Unauthorized(RevokedMessage(Some(Text(reason)))))
  {
    RevokeTouchesOnlyRevokeFields(s, token, reason);
  }

  /** The revocation message names the reason: different reasons give different messages. */
  lemma RevokedMessageNamesReason(a: RevokeReason, b: RevokeReason)
    requires RevokedMessage(Some(Text(a))) == RevokedMessage(Some(Text(b)))
    ensures a == b
  {
    var prefix := "This session has been revoked. Reason: '";
    var ma, mb := RevokedMessage(Some(Text(a))), RevokedMessage(Some(Text(b)));
    assert ma == prefix + Text(a) + "'";
    assert mb == prefix + Text(b) + "'";
    assert Text(a) == ma[|prefix|..|ma| - 1];
    assert Text(b) == mb[|prefix|..|mb| - 1];
    TextInjective(a, b);
  }

  /** Different identifiers give different cache keys. */
  lemma SessionKeyInjective(a: string, b: string)
    requires SessionKey(Some(a)) == SessionKey(Some(b))
    ensures a == b
  {
    var prefix := "session:";
    assert a == SessionKey(Some(a))[|prefix|..];
    assert b == SessionKey(Some(b))[|prefix|..];
  }

  /**
   * A freshly issued session (its key unused before) verifies with its own
   * payload until the token's `exp`, whatever the cache has dropped meanwhile.
   */
  lemma IssuedSessionVerifies(s: Redis.Store, config: SessionConfig, userId: string, ipAddress: string, userAgent: string, jti: string, dt: nat)
    requires s.Valid() && SessionKey(Some(jti)) !in s.hashes
    requires Generate(s, config, userId, ipAddress, userAgent, jti).Ok?
    requires var token := Generate(s, config, userId, ipAddress, userAgent, jti).value.0;
      s.now + dt < Jwt.Decode(token).value.exp.value
    ensures var (token, s') := Generate(s, config, userId, ipAddress, userAgent, jti).value;
      && Verified(s', config, token) == Ok(Jwt.Decode(token).value)
      && Verified(s'.Tick(dt), config, token) == Ok(Jwt.Decode(token).value)
  {
    var (token, s') := Generate(s, config, userId, ipAddress, userAgent, jti).value;
    var key := SessionKey(Some(jti));
    var p := Jwt.Decode(token).value;
    assert p.claims.jti == Some(jti);
    var record := SessionRecord(p, Some(ipAddress), Some(userAgent), config.hashToken(token));
    assert s' == s.HMSet(key, record).Expire(key, SessionTtl(p, config.threshold));
    assert RevokeTimestampField !in record;
    assert s'.HGet(key, RevokeTimestampField).None?;
    assert s'.Tick(dt).HGet(key, RevokeTimestampField).None?;
  }

  // ---------------------------------------------------------------------------
  // The service object: each call updates the Redis client step by step
  // ---------------------------------------------------------------------------

  class SessionService {
    const config: SessionConfig
    const redis: Redis.TtlStore

    ghost predicate Valid()
      reads this, redis
    {
      redis.Valid()
    }

    constructor (config: SessionConfig, redis: Redis.TtlStore)
      requires redis.Valid()
      ensures this.config == config && this.redis == redis && Valid()
    {
      this.config := config;
      this.redis := redis;
    }

    /** Sign `{sub: userId, jti}` and cache it before handing the token out. */
    method GenerateToken(userId: string, ipAddress: string, userAgent: string, jti: string) returns (r: Result<Jwt.Token, Thrown>)
      requires Valid()
      modifies redis
      ensures Valid()
      ensures var g := Generate(old(redis.State()), config, userId, ipAddress, userAgent, jti);
        && (g.Ok? ==> r == Ok(g.value.0) && redis.State() == g.value.1)
        && (g.Err? ==> r == Err(g.error) && redis.State() == old(redis.State()))
    {
      var env := Jwt.Env(redis.now, config.timespan);
      var signed := Jwt.Sign(SessionClaims(userId, jti), config.secret, config.expiresIn, env);
      if signed.Err? {
        return Err(ErrorObject(Jwt.Message(signed.error)));
      }
      var cached := CacheSessionToken(signed.value, Some(ipAddress), Some(userAgent));
      if cached.Err? {
        return Err(cached.error);
      }
      r := Ok(signed.value);
    }

    /** Codec check, then the revocation mark of `session:<jti>`. */
    method VerifyToken(token: Jwt.Token) returns (r: Result<Jwt.Payload, Thrown>)
      requires Valid()
      ensures r == Verified(redis.State(), config, token)
    {
      var verified := Jwt.Verify(token, config.secret, redis.now);
      if verified.Err? {
        return Err(Unauthorized(InvalidSessionMessage));
      }
      var payload := verified.value;
      var cacheKey := SessionKey(payload.claims.jti);
      var revokedAt := redis.HGet(cacheKey, RevokeTimestampField);
      if Truthy(revokedAt) {
        var revokedReason := redis.HGet(cacheKey, RevokeReasonField);
        return Err(Unauthorized(RevokedMessage(revokedReason)));
      }
      r := Ok(payload);
    }

    /** Decode without verifying, then set the revocation timestamp and reason. */
    method Revoke(token: Jwt.Token, reason: RevokeReason) returns (r: Result<(), Thrown>)
      requires Valid()
      modifies redis
      ensures Valid()
      ensures var o := Revoked(old(redis.State()), token, reason);
        && (o.Ok? ==> r == Ok(()) && redis.State() == o.value)
        && (o.Err? ==> r == Err(o.error) && redis.State() == old(redis.State()))
    {
      var decoded := Jwt.Decode(token);
      if decoded.None? {
        return Err(ErrorObject(NoPayloadMessage));
      }
      var cacheKey := SessionKey(decoded.value.claims.jti);
      redis.HSet(cacheKey, RevokeTimestampField, Decimal.IntToString(redis.now));
      redis.HSet(cacheKey, RevokeReasonField, Text(reason));
      r := Ok(());
    }

    /** Check the payload's structure, write the metadata hash, then set its TTL. */
    method CacheSessionToken(token: Jwt.Token, ipAddress: Option<string>, userAgent: Option<string>) returns (r: Result<(), Thrown>)
      requires Valid()
      modifies redis
      ensures Valid()
      ensures var o := Cache(old(redis.State()), config, token, ipAddress, userAgent);
        && (o.Ok? ==> r == Ok(()) && redis.State() == o.value)
        && (o.Err? ==> r == Err(o.error) && redis.State() == old(redis.State()))
    {
      var decoded := Jwt.Decode(token);
      if decoded.None? || !WellFormed(decoded.value) {
        return Err(ErrorObject(InvalidStructureMessage));
      }
      var payload := decoded.value;
      var cacheKey := SessionKey(payload.claims.jti);
      var hashedToken := config.hashToken(token);
      redis.HMSet(cacheKey, SessionRecord(payload, ipAddress, userAgent, hashedToken));
      var ttl := SessionTtl(payload, config.threshold);
      var _ := redis.Expire(cacheKey, ttl);
      r := Ok(());
    }
  }

  /** The outcome of the revocation scenario, on the specification functions. */
  lemma ScenarioOutcome(s: Redis.Store, config: SessionConfig, userId: string, jti: string, ipAddress: string, userAgent: string)
    requires s.Valid() && SessionKey(Some(jti)) !in s.hashes
    requires userId != "" && jti != "" && config.secret != "" && s.now > 0
    requires config.timespan(config.expiresIn).Some? && config.timespan(config.expiresIn).value > 0
    ensures Generate(s, config, userId, ipAddress, userAgent, jti).Ok?
    ensures var (token, s') := Generate(s, config, userId, ipAddress, userAgent, jti).value;
      && Verified(s', config, token).Ok?
      && Verified(s', config, token).value.claims.sub == Some(userId)
      && Revoked(s', token, SecurityIssue).Ok?
      && Verified(Revoked(s', token, SecurityIssue).value, config, token)
        == Err(Unauthorized(RevokedMessage(Some("Security Issue"))))
  {
    GenerateSucceeds(s, config, userId, ipAddress, userAgent, jti);
    IssuedSessionVerifies(s, config, userId, ipAddress, userAgent, jti, 0);
    var (token, s') := Generate(s, config, userId, ipAddress, userAgent, jti).value;
    assert Jwt.Decode(token).value.claims == SessionClaims(userId, jti);
    RevokedTokenIsRejected(s', config, token, SecurityIssue);
  }

  /**
   * Issue a session, verify it, revoke it for a security issue and verify
   * again: the second verification names the reason.
   */
  method RevocationScenario(service: SessionService, userId: string, jti: string, ipAddress: string, userAgent: string)
    returns (first: Result<Jwt.Payload, Thrown>, second: Result<Jwt.Payload, Thrown>)
    requires service.Valid()
    requires SessionKey(Some(jti)) !in service.redis.hashes
    requires userId != "" && jti != "" && service.config.secret != "" && service.redis.now > 0
    requires service.config.timespan(service.config.expiresIn).Some?
    requires service.config.timespan(service.config.expiresIn).value > 0
    modifies service.redis
    ensures first.Ok? && first.value.claims.sub == Some(userId)
    ensures second == Err(Unauthorized(RevokedMessage(Some("Security Issue"))))
  {
    ScenarioOutcome(service.redis.State(), service.config, userId, jti, ipAddress, userAgent);
    var issued := service.GenerateToken(userId, ipAddress, userAgent, jti);
    var token := issued.value;
    first := service.VerifyToken(token);
    var revoked := service.Revoke(token, SecurityIssue);
    second := service.VerifyToken(token);
  }
}

/**
 * Per-kind token handling for password-reset and email-verification tokens:
 * resolve the kind's configuration by key, sign with its secret and
 * lifetime, verify with its secret, and decode without checks.
 */
module Tokens {
  import opened Results
  import opened Exceptions
  import Jwt

  /** One token kind's configuration; `url` is optional. */
  datatype TokenConfig = TokenConfig(secret: string, expiresIn: string, url: Option<string>)

  /** `configService.get(key)` for the token sections: a key without a section has no entry. */
  type Configs = map<string, TokenConfig>

  /** The result of the key overload of `generate`: the token and the configuration it was signed with. */
  datatype Generated = Generated(token: Jwt.Token, config: TokenConfig)

  const InvalidTokenMessage := "Invalid or expired token"

  function MissingConfigMessage(key: string): string {
    key + " JWT configuration is missing"
  }

  /** `getTokenConfig`: only a missing section is refused; its contents are not checked. */
  function GetTokenConfig(configs: Configs, key: string): (r: Result<TokenConfig, Thrown>)
    ensures r.Ok? <==> key in configs
    ensures r.Ok? ==> r.value == configs[key]
    ensures r.Err? ==> r.error == ErrorObject(MissingConfigMessage(key))
  {
    if key in configs then Ok(configs[key]) else Err(ErrorObject(MissingConfigMessage(key)))
  }

  /** `generate(payload, config)`: sign with exactly the configuration's secret and lifetime; a codec error propagates. */
  function GenerateWithConfig(payload: Jwt.Claims, config: TokenConfig, env: Jwt.Env): (r: Result<Jwt.Token, Thrown>)
    ensures r.Ok? <==> config.secret != "" && env.timespan(config.expiresIn).Some?
    ensures r.Ok? ==> r.value.Signed? && r.value.secret == config.secret
    ensures r.Ok? ==> Jwt.Decode(r.value) == Some(Jwt.Payload(payload, Some(env.now), Some(env.now + env.timespan(config.expiresIn).value)))
  {
    match Jwt.Sign(payload, config.secret, config.expiresIn, env)
    case Err(e) => Err(ErrorObject(Jwt.Message(e)))
    case Ok(token) => Ok(token)
  }

  /** `generate(payload, key)`: resolve the configuration, sign with it, and return both. */
  function GenerateWithKey(payload: Jwt.Claims, configs: Configs, key: string, env: Jwt.Env): (r: Result<Generated, Thrown>)
    ensures key !in configs ==> r == Err(ErrorObject(MissingConfigMessage(key)))
    ensures r.Ok? ==> key in configs && r.value.config == configs[key]
    ensures key in configs ==> match GenerateWithConfig(payload, configs[key], env)
      case Ok(t) => r == Ok(Generated(t, configs[key]))
      case Err(e) => r == Err(e)
  {
    var config :- GetTokenConfig(configs, key);
    var token :- GenerateWithConfig(payload, config, env);
    Ok(Generated(token, config))
  }

  /**
   * `verify`: the configuration is resolved before the codec is called, so a
   * missing one surfaces as the plain error; every codec failure becomes the
   * one Unauthorized error.
   */
  function Verify(token: Jwt.Token, configs: Configs, key: string, now: int): (r: Result<Jwt.Payload, Thrown>)
    ensures key !in configs ==> r == Err(ErrorObject(MissingConfigMessage(key)))
    ensures key in configs ==> (r.Ok? <==> Jwt.Verify(token, configs[key].secret, now).Ok?)
    ensures key in configs && r.Err? ==> r.error == Unauthorized(InvalidTokenMessage)
    ensures r.Ok? ==> Jwt.Decode(token) == Some(r.value)
  {
    var config :- GetTokenConfig(configs, key);
    match Jwt.Verify(token, config.secret, now)
    case Err(_) => Err(Unauthorized(InvalidTokenMessage))
    case Ok(payload) => Ok(payload)
  }

  /**
   * `decode`: the payload without any signature or expiry check. The codec
   * answers text it cannot parse with no payload (`null`) instead of
   * throwing, so the service resolves with that and its Unauthorized branch
   * is never taken.
   */
  function Decode(token: Jwt.Token): (r: Result<Option<Jwt.Payload>, Thrown>)
    ensures r.Ok?
    ensures r.value.Some? <==> token.Signed?
    ensures r.value.Some? ==> r.value.value == token.payload
  {
    Ok(Jwt.Decode(token))
  }

  /** An unknown key produces no token, only the missing-configuration error. */
  lemma UnknownKeyProducesNoToken(payload: Jwt.Claims, configs: Configs, key: string, env: Jwt.Env)
    requires key !in configs
    ensures GenerateWithKey(payload, configs, key, env) == Err(ErrorObject(MissingConfigMessage(key)))
  {
  }

  /** The two overloads sign identically; the key overload only adds the configuration it resolved. */
  lemma OverloadsAgree(payload: Jwt.Claims, configs: Configs, key: string, env: Jwt.Env)
    requires key in configs
    ensures GenerateWithKey(payload, configs, key, env).Ok? <==> GenerateWithConfig(payload, configs[key], env).Ok?
    ensures GenerateWithKey(payload, configs, key, env).Ok? ==>
      GenerateWithKey(payload, configs, key, env).value == Generated(GenerateWithConfig(payload, configs[key], env).value, configs[key])
  {
  }

  /** `verify` reads only the secret of the configuration: the lifetime and URL play no part. */
  lemma VerifyReadsOnlySecret(token: Jwt.Token, configs: Configs, configs': Configs, key: string, now: int)
    requires key in configs && key in configs' && configs[key].secret == configs'[key].secret
    ensures Verify(token, configs, key, now) == Verify(token, configs', key, now)
  {
  }

  /** A generated token verifies under the same key until its expiry, returning the signed claims; from then on it is Unauthorized. */
  lemma GeneratedTokenVerifies(payload: Jwt.Claims, configs: Configs, key: string, env: Jwt.Env, now: int)
    requires GenerateWithKey(payload, configs, key, env).Ok?
    ensures var t := GenerateWithKey(payload, configs, key, env).value.token;
      var exp := env.now + env.timespan(configs[key].expiresIn).value;
      && (now < exp ==> Verify(t, configs, key, now).Ok? && Verify(t, configs, key, now).value.claims == payload)
      && (now >= exp ==> Verify(t, configs, key, now) == Err(Unauthorized(InvalidTokenMessage)))
  {
    var t := GenerateWithKey(payload, configs, key, env).value.token;
    assert GenerateWithConfig(payload, configs[key], env) == Ok(t);
  }

  /** A token signed for one kind is refused under a kind with a different secret. */
  lemma KindsDoNotCross(token: Jwt.Token, configs: Configs, key: string, now: int)
    requires token.Signed? && key in configs && configs[key].secret != token.secret
    ensures Verify(token, configs, key, now) == Err(Unauthorized(InvalidTokenMessage))
  {
  }

  /** A present configuration with an empty secret passes the lookup; it is the codec that then refuses to sign. */
  lemma EmptySecretPassesLookup(payload: Jwt.Claims, configs: Configs, key: string, env: Jwt.Env)
    requires key in configs && configs[key].secret == ""
    ensures GetTokenConfig(configs, key).Ok?
    ensures GenerateWithKey(payload, configs, key, env) == Err(ErrorObject(Jwt.Message(Jwt.SignSecretMissing)))
  {
  }
}

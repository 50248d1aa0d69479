/**
 * The signed-token codec the services delegate to, kept abstract: a token
 * carries its payload (claims plus the `iat` and `exp` registered claims of
 * sections 4.1.6 and 4.1.4 of RFC 7519) and the secret it was signed with.
 * Verification succeeds exactly when the secret matches and the clock is
 * before `exp`; decoding reads the payload without any check.
 */
module Jwt {
  import opened Results

  /** The claims the services put into or read from a payload: `sub` (RFC 7519, 4.1.2), `jti` (4.1.7) and the private `email`. */
  datatype Claims = Claims(sub: Option<string>, jti: Option<string>, email: Option<string>)

  /** A decoded payload: the claims and the issued-at and expiry times, in seconds. */
  datatype Payload = Payload(claims: Claims, iat: Option<int>, exp: Option<int>)

  /** A token: a well-formed signed one, or a string the codec cannot parse. */
  datatype Token = Signed(payload: Payload, secret: string) | Garbled(text: string)

  datatype JwtError =
    | SignSecretMissing
    | BadExpiresIn
    | Malformed
    | VerifySecretMissing
    | InvalidSignature
    | Expired

  /** The message of the error the signing library throws. */
  function Message(e: JwtError): string {
    match e
    case SignSecretMissing => "secretOrPrivateKey must have a value"
    case BadExpiresIn => "\"expiresIn\" should be a number of seconds or string representing a timespan"
    case Malformed => "jwt malformed"
    case VerifySecretMissing => "secret or public key must be provided"
    case InvalidSignature => "invalid signature"
    case Expired => "jwt expired"
  }

  /**
   * What the codec takes from its surroundings: the clock, in whole seconds,
   * and its reading of a lifetime string such as "15m" as a number of seconds
   * (`None` for a string it cannot read).
   */
  datatype Env = Env(now: int, timespan: string -> Option<int>)

  /** Sign `claims` with `secret`, stamping `iat` now and `exp` one lifetime later. */
  function Sign(claims: Claims, secret: string, expiresIn: string, env: Env): (r: Result<Token, JwtError>)
    ensures r.Ok? <==> secret != "" && env.timespan(expiresIn).Some?
    ensures r.Ok? ==> r.value.Signed? && r.value.secret == secret
    ensures r.Ok? ==> Decode(r.value) == Some(Payload(claims, Some(env.now), Some(env.now + env.timespan(expiresIn).value)))
  {
    if secret == "" then Err(SignSecretMissing)
    else match env.timespan(expiresIn)
      case None => Err(BadExpiresIn)
      case Some(lifetime) => Ok(Signed(Payload(claims, Some(env.now), Some(env.now + lifetime)), secret))
  }

  /** Check the signature against `secret` and the expiry against the clock, then return the payload. */
  function Verify(token: Token, secret: string, now: int): (r: Result<Payload, JwtError>)
    ensures r.Ok? <==> token.Signed? && secret != "" && token.secret == secret && !IsExpired(token.payload, now)
    ensures r.Ok? ==> Decode(token) == Some(r.value)
  {
    match token
    case Garbled(_) => Err(Malformed)
    case Signed(payload, signedWith) =>
      if secret == "" then Err(VerifySecretMissing)
      else if signedWith != secret then Err(InvalidSignature)
      else if IsExpired(payload, now) then Err(Expired)
      else Ok(payload)
  }

  /** A payload is expired once the clock has reached its `exp`; one without `exp` never expires. */
  predicate IsExpired(payload: Payload, now: int) {
    payload.exp.Some? && now >= payload.exp.value
  }

  /**
   * Read the payload without checking signature or expiry. Text the codec
   * cannot parse yields no payload (`null`) rather than an error.
   */
  function Decode(token: Token): (r: Option<Payload>)
    ensures r.Some? <==> token.Signed?
    ensures r.Some? ==> r.value == token.payload
  {
    match token
    case Garbled(_) => None
    case Signed(payload, _) => Some(payload)
  }

  /** A freshly signed token verifies, with its own secret, until its `exp` and returns exactly the signed claims. */
  lemma VerifySigned(claims: Claims, secret: string, expiresIn: string, env: Env, secret': string, now: int)
    requires Sign(claims, secret, expiresIn, env).Ok?
    ensures var t := Sign(claims, secret, expiresIn, env).value;
      Verify(t, secret', now).Ok? <==> secret' == secret && now < t.payload.exp.value
    ensures var t := Sign(claims, secret, expiresIn, env).value;
      Verify(t, secret', now).Ok? ==> Verify(t, secret', now).value.claims == claims
  {
  }

  /** Once its `exp` is reached a token never verifies, whatever the secret. */
  lemma ExpiredNeverVerifies(token: Token, secret: string, now: int)
    requires token.Signed? && IsExpired(token.payload, now)
    ensures Verify(token, secret, now).Err?
    ensures secret != "" && token.secret == secret ==> Verify(token, secret, now) == Err(Expired)
  {
  }
}

# User service core, modelled in Dafny

This project models the decision logic of the user service of a game-review
platform. The service is a NestJS gRPC microservice that issues and checks
login sessions, signs the one-shot password-reset and email-verification
tokens, queues notification emails, keeps the user table and maps every
failure to a gRPC status.

The model covers seven parts of the service:

- **Session authority** (`Sessions`, over `Redis` and `Jwt`). `generateToken`
  signs `{sub, jti}` and caches metadata under `session:<jti>`, with a TTL of
  `exp - iat + threshold`. `verifyToken` first runs the codec check, then looks
  for the `revoke.timestamp` field. `revoke` decodes the token without checking
  it and writes the two revocation fields. The Redis client is a class over a
  snapshot datatype `Redis.Store`. The store holds hashes, per-key deadlines and
  a clock in seconds. The service methods update the store one command at a
  time. Each method is proved equal to a specification function (`Generate`,
  `Cache`, `Verified`, `Revoked`), and the lemmas are proved about those
  functions.
- **Revoke reasons** (`RevokeReasons`): the closed enumeration and its display
  strings.
- **Per-kind tokens** (`Tokens`): configuration lookup by key, both overloads
  of `generate`, `verify` and `decode`, over the abstract codec `Jwt`.
- **Email producer** (`Email`): the `formatExpirationTime` parser and
  pretty-printer, the queued job, and the two senders. The queue is the
  `queue` field of the `EmailService` class.
- **Error mapper** (`ExceptionHandler`, `GrpcStatus`): the HTTP-to-gRPC status
  table and `handleError`.
- **User table** (`Users`): a `UserService` class over a map from document id
  to user. It covers registration with the uniqueness check, the four lookups,
  and `updateUser`. `updateUser` changes a loaded copy field by field, loops
  over the remaining fields, and saves only at the end.
- **Request metadata** (`Metadata`): `parseMetadata` over a header multimap.

Shared modules:

- `Results`: `Option` and `Result` (`Err` carries what JavaScript would throw).
- `Js`: truthiness and how template literals render `undefined` and `null`.
- `Decimal`: `parseInt(s, 10)` and `String(n)`, with their round trips.
- `Exceptions`: the values that can be thrown.

Collaborators the model cannot see become parameters or function-typed
fields:

- bcrypt (`SessionConfig.hashToken`, `UserService.hash`);
- the lifetime parser of the JWT library (`Jwt.Env.timespan`);
- template rendering and HTML-to-text (`EmailDeps.render`, `EmailDeps.htmlToText`);
- the URL builder (`EmailDeps.urlWithToken`);
- the fresh `jti`, the bcrypt salt and the new document id, which are method parameters.

One logical clock, `TtlStore.now`, serves both the JWT library and Redis.

Some behaviours of the code that the model keeps as they are:

- Writing a field of a cache entry does not restart its TTL. `HSET` and
  `HMSET` keep the TTL the key already has. `EXPIRE` ignores a missing key
  and deletes the key when the timeout is not positive. `Redis.Store` models
  these commands as Redis defines them.
- `verifyToken` returns the payload when the cache entry is missing
  (`Sessions.VerifiedOutcomes`); only a revocation mark makes it fail.
- Revoking a token whose entry is gone creates an entry with just the two
  revocation fields and no TTL (`Sessions.RevokeMissingEntry`).
- The session service has no renewal operation.
- `decode` of text that is not a token resolves with no payload instead of
  throwing (`Tokens.Decode`); `revoke` then fails reading `jti` of nothing,
  and `cacheSessionToken` reports an invalid payload structure.
- The Redis threshold is whatever integer the configuration holds; nothing
  keeps it at or above zero, so a negative threshold makes a session entry
  expire before its token (`Sessions.CachedRecord`).

## Model

| member | source | states |
|---|---|---|
| Decimal.NatToString | apps/user-service/src/session/session.service.ts:116 | `toString()` of a non-negative integer is a canonical numeral: digits only, no leading zero, one digit exactly below 10 |
| Decimal.IntToString | apps/user-service/src/session/session.service.ts:116 | a negative value gets a minus sign in front of a canonical numeral; otherwise the numeral is canonical |
| Decimal.ParseNatToString | apps/user-service/src/email/email.service.ts:117 | `parseInt` of the numeral of `n` gives `n` back |
| Decimal.NatToStringParse | apps/user-service/src/email/email.service.ts:117-124 | rendering the parsed value of a canonical numeral gives the same numeral |
| Decimal.ParsePositive | apps/user-service/src/email/email.service.ts:117 | a canonical numeral that does not start with 0 denotes a value of at least 1 |
| Decimal.ParseLeadingZero | apps/user-service/src/email/email.service.ts:117 | a leading zero does not change the parsed value |
| Decimal.NatToStringInjective | apps/user-service/src/email/email.service.ts:124 | distinct values print as distinct numerals |
| RevokeReasons.Parse | apps/user-service/src/session/enums/revoke-reason.enum.ts:4-44 | reading a string gives a reason whose display string is that string; `None` exactly when no reason has it |
| RevokeReasons.EightReasons | apps/user-service/src/session/enums/revoke-reason.enum.ts:4-44 | there are exactly eight reasons, each listed once |
| RevokeReasons.Text | apps/user-service/src/session/enums/revoke-reason.enum.ts:4-44 | every display string is non-empty, starts with a capital letter and contains no quote |
| RevokeReasons.TextInjective | apps/user-service/src/session/enums/revoke-reason.enum.ts:8-43 | no two reasons share a display string |
| RevokeReasons.ParseText | apps/user-service/src/session/enums/revoke-reason.enum.ts:4-44 | reading is a left inverse of the display string |
| Redis.Store.HGet | apps/user-service/src/session/session.service.ts:51-60 | `HGET` gives the field's value exactly when the live key has that field |
| Redis.Store.HSet | apps/user-service/src/session/session.service.ts:82-87 | `HSET` sets one field, creates a missing key, and changes no other field, no other key, no deadline |
| Redis.Store.HMSet | apps/user-service/src/session/session.service.ts:111-117 | `HMSET` sets the given fields and keeps the other fields, the other keys and every deadline |
| Redis.Store.Expire | apps/user-service/src/session/session.service.ts:119-123 | `EXPIRE` does nothing on a missing key, sets the deadline `seconds` from now when positive, and deletes the key otherwise |
| Redis.Store.Tick | apps/user-service/src/session/session.service.ts:119-123 | when time passes, exactly the keys whose deadline is behind the clock disappear; the others are unchanged |
| Redis.HMSetThenExpire | apps/user-service/src/session/session.service.ts:107-123 | after `HMSET` and then `EXPIRE` with a positive timeout, the key holds the given fields and expires that many seconds from now; with any other timeout the key is gone |
| Redis.ExpiredKeyReadsAbsent | apps/user-service/src/session/session.service.ts:119-123 | once more than `ttl` seconds have passed, every field of the key reads as absent |
| Redis.LiveKeyKeepsFields | apps/user-service/src/session/session.service.ts:119-123 | within `ttl` seconds the key keeps all its fields |
| Redis.TtlStore.HGet | apps/user-service/src/session/session.service.ts:51-60 | the client's `HGET` reads the current snapshot |
| Redis.TtlStore.HSet | apps/user-service/src/session/session.service.ts:82-87 | the client's state becomes `HSet` of the old snapshot, and validity is kept |
| Redis.TtlStore.HMSet | apps/user-service/src/session/session.service.ts:111-117 | the client's state becomes `HMSet` of the old snapshot |
| Redis.TtlStore.Expire | apps/user-service/src/session/session.service.ts:123 | the client's state becomes `Expire` of the old snapshot; the reply says whether the key existed |
| Redis.TtlStore.Tick | apps/user-service/src/session/session.service.ts:119-123 | the client's state becomes `Tick` of the old snapshot |
| Jwt.Sign | apps/user-service/src/token/token.service.ts:34-45 | signing fails exactly when the secret is empty or the lifetime is unreadable; otherwise the token carries the claims, `iat` = now and `exp` = now + lifetime |
| Jwt.Verify | apps/user-service/src/token/token.service.ts:48-58 | verification succeeds exactly for a well-formed token whose secret matches a non-empty secret and whose `exp` is still ahead; it returns the decoded payload |
| Jwt.Decode | apps/user-service/src/token/token.service.ts:60-67 | a well-formed token gives its payload, with no signature or expiry check; any other text gives no payload (`null`) rather than an error |
| Jwt.VerifySigned | apps/user-service/src/token/token.service.ts:48-58 | a freshly signed token verifies exactly under its own secret and before its `exp`, and yields the signed claims |
| Jwt.ExpiredNeverVerifies | apps/user-service/src/token/token.service.ts:48-58 | once `exp` is reached a token never verifies, whatever the secret |
| Sessions.Cache | apps/user-service/src/session/session.service.ts:90-125 | the store after caching is valid: every deadline belongs to a stored key and none has passed (its contents are stated by `CachedRecord`) |
| Sessions.Generate | apps/user-service/src/session/session.service.ts:28-43 | the store after issuing is valid: every deadline belongs to a stored key and none has passed (its contents are stated by `GenerateSignsAndCaches`) |
| Sessions.Revoked | apps/user-service/src/session/session.service.ts:78-88 | the store after revoking is valid: every deadline belongs to a stored key and none has passed (its contents are stated by `RevokeTouchesOnlyRevokeFields`) |
| Sessions.Verified | apps/user-service/src/session/session.service.ts:45-76 | a payload is returned only for a token signed with the session secret, not expired and without a revocation mark in the cache; every failure is a 401 Unauthorized |
| Sessions.GenerateSignsAndCaches | apps/user-service/src/session/session.service.ts:28-43 | the token is signed over exactly `{sub: userId, jti}`, stamped now with the configured lifetime; `session:<jti>` holds the user id, IP, user agent and token hash, with the deadline now + lifetime + threshold; a TTL that is not positive leaves no entry |
| Sessions.GenerateSucceeds | apps/user-service/src/session/session.service.ts:28-43 | with a usable secret and lifetime and a complete payload, issuing succeeds |
| Sessions.CachedRecord | apps/user-service/src/session/session.service.ts:107-123 | the record has `userId` = `sub`, `''` for a missing IP or user agent and the token's fingerprint as `hashedToken`; `expiredAt` parses back to `exp`; the deadline is now + `exp - iat + threshold`, which is at least the token's lifetime exactly when the threshold is not negative; a TTL that is not positive leaves no entry |
| Sessions.CacheRefusesIncompletePayload | apps/user-service/src/session/session.service.ts:95-105 | a payload that cannot be decoded or lacks a truthy `jti`, `sub`, `iat` or `exp` fails with "Invalid JWT payload structure" |
| Sessions.VerifiedOutcomes | apps/user-service/src/session/session.service.ts:45-76 | any codec failure gives the generic Unauthorized error; otherwise verification fails exactly when `revoke.timestamp` is set, and it returns the payload even when the entry is missing |
| Sessions.RevokeTouchesOnlyRevokeFields | apps/user-service/src/session/session.service.ts:78-88 | revoking sets the reason and a truthy timestamp, and leaves every other field, every other key, every deadline and the clock unchanged |
| Sessions.RevokeMissingEntry | apps/user-service/src/session/session.service.ts:78-88 | revoking a token whose entry is gone creates an entry with just the two fields and no TTL |
| Sessions.RevokeUndecodable | apps/user-service/src/session/session.service.ts:79-80 | a token that cannot be decoded fails with the `null` dereference error |
| Sessions.RevokedTokenIsRejected | apps/user-service/src/session/session.service.ts:51-88 | after `revoke(t, r)`, verifying a codec-valid `t` fails with the message naming `r` |
| Sessions.RevokedMessageNamesReason | apps/user-service/src/session/session.service.ts:61-63 | different reasons give different revocation messages |
| Sessions.SessionKeyInjective | apps/user-service/src/session/session.service.ts:48 | different identifiers give different cache keys |
| Sessions.IssuedSessionVerifies | apps/user-service/src/session/session.service.ts:28-76 | a freshly issued session verifies with its own payload until `exp`, including after time passes and the cache drops keys |
| Sessions.SessionService.GenerateToken | apps/user-service/src/session/session.service.ts:28-43 | returns the token of `Generate` and leaves the store in its state; on error the store is unchanged |
| Sessions.SessionService.VerifyToken | apps/user-service/src/session/session.service.ts:45-76 | returns exactly `Verified` of the current store |
| Sessions.SessionService.Revoke | apps/user-service/src/session/session.service.ts:78-88 | the store becomes `Revoked` of the old store; on error it is unchanged |
| Sessions.SessionService.CacheSessionToken | apps/user-service/src/session/session.service.ts:90-125 | the store becomes `Cache` of the old store; on error it is unchanged |
| Sessions.ScenarioOutcome | apps/user-service/src/session/session.service.ts:28-88 | on a fresh identifier, issuing succeeds; the new session verifies with the user's id as `sub`; after revoking it for a security issue, verifying it fails with the message naming "Security Issue" |
| Sessions.RevocationScenario | apps/user-service/src/session/session.service.ts:28-88 | issue, verify, revoke for a security issue, verify again: the first verification returns the user's claims, and the second fails naming "Security Issue" |
| Tokens.GetTokenConfig | apps/user-service/src/token/token.service.ts:73-79 | lookup succeeds exactly for a present key, returns its configuration, and otherwise fails with "`<key>` JWT configuration is missing" |
| Tokens.GenerateWithConfig | apps/user-service/src/token/token.service.ts:40-45 | signs with exactly the configuration's secret and lifetime; it fails exactly when the codec does |
| Tokens.GenerateWithKey | apps/user-service/src/token/token.service.ts:31-39 | an unknown key fails with the missing-configuration error; otherwise it returns the token of the configuration overload together with the configuration it resolved |
| Tokens.Verify | apps/user-service/src/token/token.service.ts:48-58 | a missing configuration surfaces as the plain error; otherwise it succeeds exactly when the codec accepts the token with that secret, and every failure is "Invalid or expired token" |
| Tokens.Decode | apps/user-service/src/token/token.service.ts:60-67 | `decode` always resolves: with the unchecked payload of a well-formed token, and with no payload (`null`) for any other text, so its Unauthorized branch is never taken |
| Tokens.UnknownKeyProducesNoToken | apps/user-service/src/token/token.service.ts:31-32 | an unknown key produces no token, only the missing-configuration error |
| Tokens.OverloadsAgree | apps/user-service/src/token/token.service.ts:27-46 | both overloads sign identically; the key overload adds only the configuration |
| Tokens.VerifyReadsOnlySecret | apps/user-service/src/token/token.service.ts:51-53 | two configurations with the same secret verify every token the same way |
| Tokens.GeneratedTokenVerifies | apps/user-service/src/token/token.service.ts:18-58 | a generated token verifies under its key before its expiry, returning the signed claims; from then on it is Unauthorized |
| Tokens.KindsDoNotCross | apps/user-service/src/token/token.service.ts:48-58 | a token is refused under a kind with a different secret |
| Tokens.EmptySecretPassesLookup | apps/user-service/src/token/token.service.ts:74-77 | a present configuration with an empty secret passes the lookup, and signing then fails in the codec |
| Email.MatchExpiration | apps/user-service/src/email/email.service.ts:108-115 | a match splits the input into one or more digits and one unit letter |
| Email.FormatExpirationTime | apps/user-service/src/email/email.service.ts:106-151 | the formatter succeeds exactly when its regular expression matches, fails only with the invalid-format error, and its output reads back as the parsed number and the unit its letter names |
| Email.FormatAcceptsExactlyThePattern | apps/user-service/src/email/email.service.ts:106-152 | the formatter succeeds exactly on the configuration pattern; anything else gets the invalid-format error, and the unsupported-unit branch is unreachable |
| Email.ConfigPatternIsFormatPattern | apps/user-service/src/config/schemas/config.schema.ts:41-59 | the schema's pattern `^[0-9]+[smhdwMy]$` and the formatter's regular expression accept the same strings |
| Email.FormatThenRead | apps/user-service/src/email/email.service.ts:117-143 | the output reads back as the parsed number and the unit of the letter, and it ends in `s` exactly when the number is above one |
| Email.QuantityReadsBack | apps/user-service/src/email/email.service.ts:124-142 | `<value> <unit>[s]` reads back as the value and the unit |
| Email.UnitWordReadsBack | apps/user-service/src/email/email.service.ts:122-143 | each unit word, singular or plural, names its unit |
| Email.FormatOf | apps/user-service/src/email/email.service.ts:106-143 | digits followed by a unit letter format as the parsed value and the letter's unit word |
| Email.SingularAtOne | apps/user-service/src/email/email.service.ts:117-128 | "1m" gives "1 minute" |
| Email.SingularAtZero | apps/user-service/src/email/email.service.ts:117-125 | "0s" gives "0 second": zero takes the singular too |
| Email.PluralAboveOne | apps/user-service/src/email/email.service.ts:117-134 | "3d" gives "3 days" |
| Email.RejectedExamples | apps/user-service/src/email/email.service.ts:108-115 | "1h " (a trailing space) and "m" (no number) are refused with the invalid-format error |
| Email.TwoMonths | apps/user-service/src/email/email.service.ts:138-140 | "2M" is announced as "2 months", while the JWT library reads it as 120 seconds |
| Email.SingleDigit | apps/user-service/src/email/email.service.ts:117-143 | a one-digit lifetime prints its own digit and the unit word, plural only above 1 |
| Email.LeadingZeroDropped | apps/user-service/src/email/email.service.ts:117 | "05m" gives "5 minutes": the leading zero is dropped |
| Email.CodecUnitOfLetter | apps/user-service/src/email/email.service.ts:126-140 | the JWT library reads each unit letter as the formatter does, except `M`, which it reads as minutes |
| Email.CodecLifetime | apps/user-service/src/email/email.service.ts:108-117 | the model's reading of the JWT library's lifetime parser, for strings of the formatter's pattern only: such a string gets a lifetime, and any other string gets none in this model (the library itself also reads forms such as "2 days", "1.5h" and "100") |
| Email.MonthsAnnouncedForMinutes | apps/user-service/src/email/email.service.ts:138-139 | for a lifetime ending in `M` the formatter announces months while the token lives that many minutes ("2M": "2 months", 120 s) |
| Email.FormatLifetimeStatesCodecLifetime | apps/user-service/src/email/email.service.ts:106-152 | the corrected formatter accepts exactly the pattern, states the token's lifetime in seconds, and differs from the original only on `M` |
| Email.Job | apps/user-service/src/email/email.service.ts:22-45 | the job's HTML is the rendered template, its text is the conversion of that same HTML, with 3 attempts and a 5000 ms backoff |
| Email.Link | apps/user-service/src/email/email.service.ts:93-104 | a configuration without a URL yields no link; otherwise the link is the URL builder's |
| Email.VerificationJob | apps/user-service/src/email/email.service.ts:50-69 | without the `emailVerification` configuration there is the missing-configuration error; a job needs a configured URL and goes to the given address with the verification subject |
| Email.VerificationJobContents | apps/user-service/src/email/email.service.ts:50-69 | without the `emailVerification` configuration there is no job; a job carries a link for a token signed over exactly `{email}` |
| Email.ResetJob | apps/user-service/src/email/email.service.ts:71-91 | without the `passwordReset` configuration there is the missing-configuration error; a job needs a configured URL and a lifetime the formatter accepts, and goes to the given address with the reset subject |
| Email.ResetJobContents | apps/user-service/src/email/email.service.ts:71-91 | a reset job signs exactly `{sub: userId}` with the configuration it looked up and renders the link and the formatted lifetime of that same configuration; with a token, a link and an accepted lifetime the job exists |
| Email.PasswordResetJob | apps/user-service/src/email/email.service.ts:71-91 | the service's reset job, with `formatExpirationTime`: the missing-configuration error without a configuration, and a job only for a lifetime the formatter's regular expression matches |
| Email.CorrectedPasswordResetJobContents | apps/user-service/src/email/email.service.ts:71-91 | the corrected reset job states exactly the token's `exp - iat` for every lifetime of the pattern, and equals the service's job unless the lifetime ends in `M` |
| Email.PasswordResetJobContents | apps/user-service/src/email/email.service.ts:71-91 | with a lifetime of the pattern, a token and a link, the service's reset job exists; when the codec reads the lifetime as the `ms` package does, the duration the email states is the token's `exp - iat`, except for a lifetime in `M`, which is stated in months while the token lives that many minutes |
| Email.EmailService.QueueEmail | apps/user-service/src/email/email.service.ts:22-48 | appends exactly one job to the queue |
| Email.EmailService.SendVerificationEmail | apps/user-service/src/email/email.service.ts:50-69 | appends the verification job when it can be built; any failure is swallowed and the queue is unchanged |
| Email.EmailService.QueuePasswordReset | apps/user-service/src/email/email.service.ts:71-91 | with a given lifetime formatter, appends the reset job, or returns its error with the queue unchanged |
| Email.EmailService.SendPasswordResetEmail | apps/user-service/src/email/email.service.ts:71-91 | with `formatExpirationTime` as written, appends `PasswordResetJob`, or returns its error with the queue unchanged |
| Email.EmailService.SendCorrectedPasswordResetEmail | apps/user-service/src/email/email.service.ts:71-91 | the same send with the corrected formatter: appends `CorrectedPasswordResetJob`, or returns its error with the queue unchanged |
| GrpcStatus.Status.Code | apps/user-service/src/common/handlers/exception.handler.ts:7-28 | gRPC codes lie between 0 and 16, and only OK is 0 |
| ExceptionHandler.GrpcCodeOf | apps/user-service/src/common/handlers/exception.handler.ts:45-46 | a status in the table maps to its entry and any other status to INTERNAL; the result is never OK |
| ExceptionHandler.UpperCase | apps/user-service/src/common/handlers/exception.handler.ts:63 | upper-cases ASCII lower-case letters and leaves every other character alone |
| ExceptionHandler.Capitalise | apps/user-service/src/common/handlers/exception.handler.ts:63 | keeps the length, upper-cases the first character and keeps the rest |
| ExceptionHandler.ValidationErrorByKeys | apps/user-service/src/common/handlers/exception.handler.ts:82-89 | an element is a validation error exactly when it is an object holding both keys, whatever their values; a non-object never is |
| ExceptionHandler.HttpMessage | apps/user-service/src/common/handlers/exception.handler.ts:49-53 | the message is the exception's own, the string response, or the body's `message`; a truthy body message always wins, and an object response never yields an empty message when the exception has one |
| ExceptionHandler.ValidationMessage | apps/user-service/src/common/handlers/exception.handler.ts:56-63 | fails exactly on an empty constraints object, with the `charAt` of undefined error; otherwise the message starts with `<property>: `, and is `<property>: Validation failed` without constraints |
| ExceptionHandler.HandleError | apps/user-service/src/common/handlers/exception.handler.ts:37-74 | the handler throws exactly on a validation error whose constraints object is empty; every answer it builds itself has a code other than OK |
| ExceptionHandler.RpcExceptionUnchanged | apps/user-service/src/common/handlers/exception.handler.ts:41-42 | an `RpcException` is returned unchanged |
| ExceptionHandler.HttpExceptionMapped | apps/user-service/src/common/handlers/exception.handler.ts:43-53 | an `HttpException` gets its status's table entry (INTERNAL when unmapped); its message is a string response verbatim, else a truthy `response.message`, else its own message |
| ExceptionHandler.ServiceExceptionsMapped | apps/user-service/src/common/handlers/exception.handler.ts:7-28 | Unauthorized, NotFound and Conflict map to UNAUTHENTICATED, NOT_FOUND and ALREADY_EXISTS, each keeping its message |
| ExceptionHandler.ValidationErrorMapped | apps/user-service/src/common/handlers/exception.handler.ts:54-64 | a validation error gives INVALID_ARGUMENT with `<property>: ` and the capitalised first constraint, or `<property>: Validation failed` without constraints |
| ExceptionHandler.FallbackMapped | apps/user-service/src/common/handlers/exception.handler.ts:65-73 | a plain `Error` gives INTERNAL with its message, or the default when that is empty; anything else gives INTERNAL with the default message |
| ExceptionHandler.TableNotInjective | apps/user-service/src/common/handlers/exception.handler.ts:7-28 | 400 and 422, 502, 503 and 505, 412 and 415, and 408 and 504 share codes, so the table is not injective |
| ExceptionHandler.TableHasNoOk | apps/user-service/src/common/handlers/exception.handler.ts:45-46 | no table entry is OK, so the INTERNAL fallback fires exactly for unmapped statuses such as 200 and 402 |
| Metadata.Get | apps/user-service/src/common/helpers/metadata.helper.ts:5-7 | an absent key has no values |
| Metadata.ParseMetadata | apps/user-service/src/common/helpers/metadata.helper.ts:4-11 | parsing succeeds exactly when a user agent is present, and the address is never empty |
| Metadata.IpAddressOfForwardedFor | apps/user-service/src/common/helpers/metadata.helper.ts:5-8 | the user agent is the first value; the address is the first forwarded-for value when present and non-empty, and "0.0.0.0" otherwise |
| Metadata.ProxyChainNotSplit | apps/user-service/src/common/helpers/metadata.helper.ts:6-8 | a comma-separated proxy chain is returned whole |
| Metadata.OnlyTwoKeysRead | apps/user-service/src/common/helpers/metadata.helper.ts:4-11 | keys other than the two headers do not change the outcome |
| Users.NewUser | apps/user-service/src/user/user.service.ts:33-42 | a new document has the given fields, role "user" when none is given, not verified, active, no failed logins |
| Users.RenameStep | apps/user-service/src/user/user.service.ts:102-108 | only the username can change, to a truthy new one; a changed username is held by no other document; a failure is the username Conflict, raised only when another document holds it |
| Users.EmailStep | apps/user-service/src/user/user.service.ts:110-117 | only the email and the verification flag can change; the email becomes a truthy new one, is held by no other document when changed, and a changed email is unverified; a failure is the email Conflict |
| Users.PasswordStep | apps/user-service/src/user/user.service.ts:119-125 | only the hash and salt change: a truthy password is hashed with the fresh salt and both are stored; otherwise the document is unchanged |
| Users.ApplyOthers | apps/user-service/src/user/user.service.ts:128-133 | applying the remaining fields changes nothing but the role and the verification flag |
| Users.Updated | apps/user-service/src/user/user.service.ts:90-135 | an unknown id gives NotFound; every error is NotFound or one of the two Conflicts; a saved document's changed username or email is held by no other document, and its login counter and active flag stay |
| Users.ApplyOthersFields | apps/user-service/src/user/user.service.ts:128-133 | the remaining fields change only the role and the verification flag, each to the last non-null value given |
| Users.UpdateUnknownUser | apps/user-service/src/user/user.service.ts:94-97 | an unknown id fails with "User with ID `<id>` not found" |
| Users.UpdateFailures | apps/user-service/src/user/user.service.ts:101-117 | the update fails exactly on a username clash (checked first) or an email clash with another user, with the matching Conflict message |
| Users.UpdateFields | apps/user-service/src/user/user.service.ts:99-134 | truthy username and email replace the old ones; a changed email is unverified unless the payload sets the flag; a truthy password is re-hashed with the fresh salt; the role takes the last non-null value; the login counter and the active flag stay |
| Users.UpdateKeepsUnique | apps/user-service/src/user/user.service.ts:101-134 | a saved update keeps usernames and emails unique |
| Users.InsertKeepsUnique | apps/user-service/src/user/user.service.ts:27-42 | registering with a free username and email keeps them unique |
| Users.UserService.FindUserById | apps/user-service/src/user/user.service.ts:57-65 | finds the document with this id exactly when there is one |
| Users.UserService.FindUser | apps/user-service/src/user/user.service.ts:45-55 | finds a stored document with this username or this email exactly when one exists |
| Users.UserService.FindUserByUsername | apps/user-service/src/user/user.service.ts:67-78 | finds a stored document with this username exactly when one exists |
| Users.UserService.FindUserByEmail | apps/user-service/src/user/user.service.ts:80-88 | finds a stored document with this email exactly when one exists |
| Users.UserService.InsertUser | apps/user-service/src/user/user.service.ts:24-43 | a taken username or email gives Conflict with the table unchanged; otherwise exactly the new document is added; uniqueness is kept |
| Users.UserService.Rename | apps/user-service/src/user/user.service.ts:102-108 | the username block gives exactly `RenameStep`: a Conflict when another document holds the new username, otherwise the renamed document |
| Users.UserService.Readdress | apps/user-service/src/user/user.service.ts:110-117 | the email block gives exactly `EmailStep`: a Conflict when another document holds the new email, otherwise the document with the new, unverified email |
| Users.UserService.ApplyRemaining | apps/user-service/src/user/user.service.ts:128-133 | the loop over the remaining fields computes `ApplyOthers`, which `ApplyOthersFields` characterises |
| Users.UserService.UpdateUser | apps/user-service/src/user/user.service.ts:90-135 | returns `Updated` of the old table, saves exactly that document on success and nothing on error, and keeps uniqueness |

## Findings

| source | as written | input that shows it | evidently intended | confidence | as-written member | corrected member |
|---|---|---|---|---|---|---|
| apps/user-service/src/email/email.service.ts:138-139 | `M` is described as months, but the JWT library's lifetime parser (the `ms` package) ignores case and reads `M` as minutes, and the configuration schema allows `M` | a password-reset lifetime of "2M": the email says "2 months", the token expires after 120 seconds | the email states the lifetime the token is signed with | medium, not executed; it rests on the documented case-insensitive parsing of `ms` | Email.MonthsAnnouncedForMinutes, on Email.FormatExpirationTime; Email.PasswordResetJobContents shows it in the service's reset job | Email.FormatLifetime, with Email.FormatLifetimeStatesCodecLifetime; Email.CorrectedPasswordResetJob and Email.EmailService.SendCorrectedPasswordResetEmail use it, with Email.CorrectedPasswordResetJobContents |

## Left out

- Cryptography: JWT signing and bcrypt are abstract. A token carries its payload and the secret it was signed with. `hashToken` in token.service.ts is only a bcrypt call and is not modelled separately.
- Jwt.Env.timespan: the JWT library's lifetime parser is a parameter. Only `Email.CodecLifetime` spells out its reading, and only for strings of the configuration pattern.
- `generateUrlWithQuery` (WHATWG `URL` serialisation) is the abstract `EmailDeps.urlWithToken`, whose `None` stands for an unparsable base URL. A missing URL gives no link in `Email.Link` itself.
- Sessions.SessionConfig: the threshold is `parseInt` of `REDIS_THRESHOLD` (apps/user-service/src/config/config.ts:25), and the configuration schema that would default it to 5 is never handed to the configuration module. When the variable is unset or not numeric the threshold is `NaN`, `EXPIRE` is refused and `cacheSessionToken` throws after `HMSET` has written an entry with no TTL. The model's threshold is always an integer, so this path is not modelled.
- Template rendering, HTML-to-text conversion and the configuration reads (`app.name`, `email.support`) are fields of `EmailDeps`. The email worker, SMTP and BullMQ retries are outside the model.
- Sessions.Revoked: the revocation timestamp `Date.now() / 1000` is fractional. The model stores the decimal of the whole-second clock. Only its presence is ever read.
- Decimal.ParseDigits: `parseInt` loses precision beyond 2^53. The model reads digits as an unbounded `nat`.
- ExceptionHandler.UpperCase: `toUpperCase` is Unicode-aware. The model upper-cases ASCII letters only.
- Exceptions: an `HttpException` response message that is not a string (such as the array a validation pipe builds) is not modelled. The response `message` is an optional string.
- Users.UserService.FindUser: which of several matching documents `findOne` returns is left open (`:|`). Database errors, which the lookups log and turn into "not found", are not modelled.
- Users: Mongoose schema validation on save (required fields, unique indexes), the `lastLogin`/`lastFailedLogin` timestamps and document timestamps are not modelled. The update payload's remaining fields are limited to the declared `role` and `emailVerified`.
- Users.UserService.InsertUser: the document id comes from the database as a fresh parameter, hence `requires newId !in users`.
- `deleteUser` in user.service.ts is not part of this model.
- Redis or MongoDB errors and unreachable backends are not modelled, and neither is concurrency between requests. Each operation runs to completion on one store.
- Session renewal, logout and the authentication flows are not part of this model. They call session operations the session service does not define.
- Metadata values are strings. Binary (`Buffer`) metadata values and their `toString()` are not modelled.

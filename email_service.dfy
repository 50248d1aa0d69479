/**
 * The email producer: the lifetime pretty-printer used in reset emails, the
 * job it puts on the email queue, and the two senders that sign a token,
 * build a link and queue the rendered template.
 */
module Email {
  import opened Results
  import opened Exceptions
  import Decimal
  import Jwt
  import Tokens

  // ---------------------------------------------------------------------------
  // formatExpirationTime
  // ---------------------------------------------------------------------------

  const InvalidFormatMessage :=
    "Invalid format for expiration time. Expected format: number followed by a time unit (s, m, h, d, w, M, y)"
  const UnsupportedUnitMessage := "Unsupported time unit. Allowed units: s, m, h, d, w, M, y"

  datatype TimeUnit = Second | Minute | Hour | Day | Week | Month | Year

  /** The letters of the class `[smhdwMy]`; case matters: `m` is minutes, `M` months. */
  function UnitOfLetter(c: char): Option<TimeUnit> {
    if c == 's' then Some(Second)
    else if c == 'm' then Some(Minute)
    else if c == 'h' then Some(Hour)
    else if c == 'd' then Some(Day)
    else if c == 'w' then Some(Week)
    else if c == 'M' then Some(Month)
    else if c == 'y' then Some(Year)
    else None
  }

  /** The groups of a successful match of `/^(\d+)([smhdwMy])$/`. */
  datatype ExpirationMatch = ExpirationMatch(digits: string, unit: char)

  /** Match `/^(\d+)([smhdwMy])$/` (`\d` is an ASCII digit): all but the last character digits, at least one, then a unit letter. */
  function MatchExpiration(s: string): (r: Option<ExpirationMatch>)
    ensures r.Some? ==> |r.value.digits| >= 1 && Decimal.AllDigits(r.value.digits)
    ensures r.Some? ==> UnitOfLetter(r.value.unit).Some? && s == r.value.digits + [r.value.unit]
  {
    if |s| >= 2 && Decimal.AllDigits(s[..|s| - 1]) && UnitOfLetter(s[|s| - 1]).Some? then
      assert s == s[..|s| - 1] + [s[|s| - 1]];
      Some(ExpirationMatch(s[..|s| - 1], s[|s| - 1]))
    else
      None
  }

  /** `${value} <unit>${value > 1 ? 's' : ''}` */
  function Quantity(value: nat, word: string): string {
    Decimal.NatToString(value) + " " + word + (if value > 1 then "s" else "")
  }

  /**
   * `formatExpirationTime`: "15m" becomes "15 minutes"; anything outside the
   * pattern throws, and what it prints reads back as the number and the unit
   * its letter names.
   */
  function FormatExpirationTime(expiration: string): (r: Result<string, Thrown>)
    ensures r.Ok? <==> MatchExpiration(expiration).Some?
    ensures r.Err? ==> r.error == ErrorObject(InvalidFormatMessage)
    ensures r.Ok? ==> var m := MatchExpiration(expiration).value;
      ReadDuration(r.value) == Some((Decimal.ParseDigits(m.digits), UnitOfLetter(m.unit).value))
  {
    match MatchExpiration(expiration)
    case None => Err(ErrorObject(InvalidFormatMessage))
    case Some(m) =>
      match UnitOfLetter(m.unit)
      case None => Err(ErrorObject(UnsupportedUnitMessage))
      case Some(u) =>
        QuantityReadsBack(Decimal.ParseDigits(m.digits), u);
        Ok(Quantity(Decimal.ParseDigits(m.digits), UnitWord(u)))
  }

  /**
   * The lifetime pattern the configuration schema enforces, `^[0-9]+[smhdwMy]$`,
   * read left to right: a digit, then either the closing unit letter or more of
   * the same.
   */
  predicate ConfigPattern(s: string) {
    |s| >= 1 && '0' <= s[0] <= '9' && DigitsThenUnit(s[1..])
  }

  predicate DigitsThenUnit(s: string) {
    if |s| == 1 then s[0] in "smhdwMy"
    else |s| > 1 && '0' <= s[0] <= '9' && DigitsThenUnit(s[1..])
  }

  /** The singular word of each unit. */
  function UnitWord(u: TimeUnit): string {
    match u
    case Second => "second"
    case Minute => "minute"
    case Hour => "hour"
    case Day => "day"
    case Week => "week"
    case Month => "month"
    case Year => "year"
  }

  /** The unit a singular word names. */
  function UnitOfSingular(w: string): Option<TimeUnit> {
    if w == "second" then Some(Second)
    else if w == "minute" then Some(Minute)
    else if w == "hour" then Some(Hour)
    else if w == "day" then Some(Day)
    else if w == "week" then Some(Week)
    else if w == "month" then Some(Month)
    else if w == "year" then Some(Year)
    else None
  }

  /** The unit a singular or plural word names. */
  function UnitOfWord(w: string): Option<TimeUnit> {
    if UnitOfSingular(w).Some? then UnitOfSingular(w)
    else if |w| >= 1 && w[|w| - 1] == 's' then UnitOfSingular(w[..|w| - 1])
    else None
  }

  /** Read a formatted duration back: the digits before the first space, then a unit word. */
  function ReadDuration(t: string): Option<(nat, TimeUnit)> {
    var i := SpaceIndex(t);
    if 1 <= i < |t| && Decimal.AllDigits(t[..i]) && UnitOfWord(t[i + 1..]).Some? then
      Some((Decimal.ParseDigits(t[..i]), UnitOfWord(t[i + 1..]).value))
    else
      None
  }

  /** The index of the first space in `t`, or `|t|`. */
  function SpaceIndex(t: string): (i: nat)
    ensures i <= |t|
    ensures forall j :: 0 <= j < i ==> t[j] != ' '
    ensures i < |t| ==> t[i] == ' '
  {
    if t == [] then 0 else if t[0] == ' ' then 0 else 1 + SpaceIndex(t[1..])
  }

  /** The first space of `digits + " " + rest` is right after the digits. */
  lemma {:induction false} SpaceAfterDigits(digits: string, rest: string)
    requires Decimal.AllDigits(digits)
    ensures SpaceIndex(digits + " " + rest) == |digits|
  {
    if digits != [] {
      assert (digits + " " + rest)[1..] == digits[1..] + " " + rest;
      SpaceAfterDigits(digits[1..], rest);
    }
  }

  /** Every string the schema's pattern admits is one the formatter's regular expression accepts, and conversely. */
  lemma {:induction false} ConfigPatternIsFormatPattern(s: string)
    ensures ConfigPattern(s) <==> MatchExpiration(s).Some?
  {
    if |s| >= 1 {
      DigitsThenUnitShape(s[1..]);
      var n := |s|;
      if n >= 2 {
        assert s[1..][..n - 2] == s[1..n - 1];
        assert s[1..][n - 2] == s[n - 1];
        assert Decimal.AllDigits(s[..n - 1]) <==> '0' <= s[0] <= '9' && Decimal.AllDigits(s[1..n - 1]);
      }
    }
  }

  lemma {:induction false} DigitsThenUnitShape(s: string)
    ensures DigitsThenUnit(s) <==>
      |s| >= 1 && Decimal.AllDigits(s[..|s| - 1]) && UnitOfLetter(s[|s| - 1]).Some?
  {
    if |s| > 1 {
      DigitsThenUnitShape(s[1..]);
      assert s[1..][..|s| - 2] == s[1..|s| - 1];
      assert Decimal.AllDigits(s[..|s| - 1]) <==> '0' <= s[0] <= '9' && Decimal.AllDigits(s[1..|s| - 1]);
    }
  }

  /**
   * The formatter accepts exactly the strings of the pattern, so its default
   * "Unsupported time unit" branch can never be taken.
   */
  lemma FormatAcceptsExactlyThePattern(s: string)
    ensures FormatExpirationTime(s).Ok? <==> ConfigPattern(s)
    ensures FormatExpirationTime(s) != Err(ErrorObject(UnsupportedUnitMessage))
    ensures !ConfigPattern(s) ==> FormatExpirationTime(s) == Err(ErrorObject(InvalidFormatMessage))
  {
    ConfigPatternIsFormatPattern(s);
  }

  /**
   * Reading the output back gives the number (leading zeros dropped) and the
   * unit of the input, and the word is plural exactly when the number is above one.
   */
  lemma FormatThenRead(s: string)
    requires ConfigPattern(s)
    ensures FormatExpirationTime(s).Ok?
    ensures var m := MatchExpiration(s).value;
      var out := FormatExpirationTime(s).value;
      && ReadDuration(out) == Some((Decimal.ParseDigits(m.digits), UnitOfLetter(m.unit).value))
      && out == Quantity(Decimal.ParseDigits(m.digits), UnitWord(UnitOfLetter(m.unit).value))
      && (out[|out| - 1] == 's' <==> Decimal.ParseDigits(m.digits) > 1)
  {
    FormatAcceptsExactlyThePattern(s);
    var m := MatchExpiration(s).value;
    QuantityReadsBack(Decimal.ParseDigits(m.digits), UnitOfLetter(m.unit).value);
  }

  /** A rendered quantity reads back as its number and unit; the word is plural exactly above one. */
  lemma QuantityReadsBack(value: nat, u: TimeUnit)
    ensures var out := Quantity(value, UnitWord(u));
      && ReadDuration(out) == Some((value, u))
      && (out[|out| - 1] == 's' <==> value > 1)
  {
    var number := Decimal.NatToString(value);
    var word := UnitWord(u) + (if value > 1 then "s" else "");
    var out := Quantity(value, UnitWord(u));
    assert out == number + " " + word;
    SpaceAfterDigits(number, word);
    assert out[..|number|] == number;
    assert out[|number| + 1..] == word;
    Decimal.ParseNatToString(value);
    UnitWordReadsBack(u, value > 1);
  }

  lemma UnitWordReadsBack(u: TimeUnit, plural: bool)
    ensures UnitOfWord(UnitWord(u) + (if plural then "s" else "")) == Some(u)
  {
    var w := UnitWord(u) + (if plural then "s" else "");
    assert UnitOfSingular(UnitWord(u)) == Some(u);
    if plural {
      assert w[..|w| - 1] == UnitWord(u);
      assert UnitOfSingular(w) == None by {
        assert w[|w| - 1] == 's';
      }
    } else {
      assert w == UnitWord(u);
    }
  }

  /** The formatter on a numeral followed by a unit letter. */
  lemma FormatOf(digits: string, c: char)
    requires |digits| >= 1 && Decimal.AllDigits(digits) && UnitOfLetter(c).Some?
    ensures FormatExpirationTime(digits + [c]) == Ok(Quantity(Decimal.ParseDigits(digits), UnitWord(UnitOfLetter(c).value)))
  {
    var s := digits + [c];
    assert s[..|s| - 1] == digits;
    assert MatchExpiration(s) == Some(ExpirationMatch(digits, c));
  }

  /** Singular at one: "1m" is "1 minute". */
  lemma SingularAtOne()
    ensures FormatExpirationTime("1m") == Ok("1 minute")
  {
    assert "1m"[..1] == "1";
    assert MatchExpiration("1m") == Some(ExpirationMatch("1", 'm'));
    assert Decimal.ParseDigits("1") == 1 by {
      assert "1"[..0] == [];
    }
    assert Decimal.NatToString(1) == "1";
    assert "1" + " " + "minute" + "" == "1 minute";
  }

  /** Singular at zero as well: "0s" is "0 second". */
  lemma SingularAtZero()
    ensures FormatExpirationTime("0s") == Ok("0 second")
  {
    SingleDigit("0s");
    assert ['0'] + " " + "second" + "" == "0 second";
  }

  /** Plural above one: "3d" is "3 days". */
  lemma PluralAboveOne()
    ensures FormatExpirationTime("3d") == Ok("3 days")
  {
    SingleDigit("3d");
    assert ['3'] + " " + "day" + "s" == "3 days";
  }

  /** Examples outside the pattern: a trailing space, and a unit without a number. */
  lemma RejectedExamples()
    ensures FormatExpirationTime("1h ") == Err(ErrorObject(InvalidFormatMessage))
    ensures FormatExpirationTime("m") == Err(ErrorObject(InvalidFormatMessage))
  {
    assert !Decimal.AllDigits("1h "[..2]) by {
      assert "1h "[..2][1] == 'h';
    }
  }

  /** A one-digit lifetime prints its own digit, and the unit word is singular up to 1. */
  lemma SingleDigit(s: string)
    requires |s| == 2 && Decimal.IsDigit(s[0]) && UnitOfLetter(s[1]).Some?
    ensures var v := Decimal.DigitValue(s[0]);
      FormatExpirationTime(s) ==
        Ok([s[0]] + " " + UnitWord(UnitOfLetter(s[1]).value) + (if v > 1 then "s" else ""))
  {
    var digit := s[..1];
    var v := Decimal.DigitValue(s[0]);
    assert MatchExpiration(s) == Some(ExpirationMatch(digit, s[1]));
    assert digit[..0] == [];
    assert Decimal.ParseDigits(digit) == v;
    assert Decimal.DigitChar(v) == s[0];
    assert Decimal.NatToString(v) == [s[0]];
  }

  /** Leading zeros are dropped: "05m" reads as five minutes. */
  lemma LeadingZeroDropped()
    ensures FormatExpirationTime("05m") == Ok("5 minutes")
  {
    FormatOf("05", 'm');
    assert "05m" == "05" + ['m'];
    assert Decimal.ParseDigits("05") == 5 by {
      assert "05"[..1] == "0";
    }
    assert Quantity(5, "minute") == "5 minutes";
  }

  // ---------------------------------------------------------------------------
  // The lifetime the token codec reads from the same string
  // ---------------------------------------------------------------------------

  /** ASCII lower case. */
  function LowerCase(c: char): char {
    if 'A' <= c <= 'Z' then (c as int - 'A' as int + 'a' as int) as char else c
  }

  /**
   * The unit the codec's lifetime parser (the `ms` package behind
   * jsonwebtoken's `expiresIn`) gives a unit letter: it ignores case, so `M`
   * is minutes there, and it has no months.
   */
  function CodecUnitOfLetter(c: char): (u: Option<TimeUnit>)
    ensures UnitOfLetter(c).Some? ==> u.Some? && u.value != Month
    ensures UnitOfLetter(c).Some? && c != 'M' ==> u == UnitOfLetter(c)
    ensures c == 'M' ==> u == Some(Minute)
  {
    UnitOfLetter(LowerCase(c))
  }

  /** Seconds per unit in the codec (a year is 365.25 days); it has no month. */
  function UnitSeconds(u: TimeUnit): nat
    requires u != Month
  {
    match u
    case Second => 1
    case Minute => 60
    case Hour => 3600
    case Day => 86400
    case Week => 604800
    case Year => 31557600
  }

  /** The lifetime in seconds the codec signs a token with, for a string of the pattern. */
  function CodecLifetime(s: string): (r: Option<nat>)
    ensures r.Some? <==> MatchExpiration(s).Some?
  {
    match MatchExpiration(s)
    case None => None
    case Some(m) => Some(Decimal.ParseDigits(m.digits) * UnitSeconds(CodecUnitOfLetter(m.unit).value))
  }

  /**
   * The formatter as written describes `M` as months, while the codec signs a
   * token of that many minutes: a password-reset lifetime of "2M" is
   * announced as "2 months" and lasts 120 seconds.
   */
  lemma MonthsAnnouncedForMinutes(s: string)
    requires ConfigPattern(s) && s[|s| - 1] == 'M'
    ensures FormatExpirationTime(s).Ok? && ReadDuration(FormatExpirationTime(s).value).Some?
    ensures ReadDuration(FormatExpirationTime(s).value).value.1 == Month
    ensures CodecUnitOfLetter(MatchExpiration(s).value.unit) == Some(Minute)
    ensures FormatExpirationTime("2M") == Ok("2 months") && CodecLifetime("2M") == Some(120)
  {
    FormatThenRead(s);
    ConfigPatternIsFormatPattern(s);
    TwoMonths();
  }

  /** "2M" is announced as "2 months" and read by the codec as 120 seconds. */
  lemma TwoMonths()
    ensures FormatExpirationTime("2M") == Ok("2 months") && CodecLifetime("2M") == Some(120)
  {
    assert "2M"[..1] == "2";
    assert MatchExpiration("2M") == Some(ExpirationMatch("2", 'M'));
    assert Decimal.ParseDigits("2") == 2 by {
      assert "2"[..0] == [];
    }
    assert Decimal.NatToString(2) == "2";
    assert "2" + " " + "month" + "s" == "2 months";
  }

  /**
   * The formatter corrected to state the lifetime the token is signed with:
   * the same pattern and errors, with each unit letter read as the codec
   * reads it.
   */
  function FormatLifetime(expiration: string): Result<string, Thrown> {
    match MatchExpiration(expiration)
    case None => Err(ErrorObject(InvalidFormatMessage))
    case Some(m) =>
      match CodecUnitOfLetter(m.unit)
      case None => Err(ErrorObject(UnsupportedUnitMessage))
      case Some(u) => Ok(Quantity(Decimal.ParseDigits(m.digits), UnitWord(u)))
  }

  /**
   * The corrected formatter accepts exactly the pattern, and what it states
   * (a number and a unit, read back from the text) is the token's lifetime.
   * It differs from the original only on `M`.
   */
  lemma FormatLifetimeStatesCodecLifetime(s: string)
    ensures FormatLifetime(s).Ok? <==> ConfigPattern(s)
    ensures !ConfigPattern(s) ==> FormatLifetime(s) == Err(ErrorObject(InvalidFormatMessage))
    ensures ConfigPattern(s) ==>
      var d := ReadDuration(FormatLifetime(s).value);
      && d.Some? && d.value.1 != Month
      && d.value.0 * UnitSeconds(d.value.1) == CodecLifetime(s).value
    ensures (|s| == 0 || s[|s| - 1] != 'M') ==> FormatLifetime(s) == FormatExpirationTime(s)
  {
    ConfigPatternIsFormatPattern(s);
    if ConfigPattern(s) {
      var m := MatchExpiration(s).value;
      QuantityReadsBack(Decimal.ParseDigits(m.digits), CodecUnitOfLetter(m.unit).value);
    }
  }

  // ---------------------------------------------------------------------------
  // Queued jobs and the two senders
  // ---------------------------------------------------------------------------

  /** Template placeholders, by name. */
  type Placeholders = map<string, string>

  datatype EmailData = EmailData(to: string, subject: string, text: string, html: string)

  /** A queue entry: the job name, its data and the retry options. */
  datatype EmailJob = EmailJob(name: string, data: EmailData, attempts: nat, backoff: nat)

  const JobName := "send-email"
  const JobAttempts := 3
  const JobBackoff := 5000
  const InvalidUrlMessage := "Invalid URL"

  /**
   * What the producer relies on: the token configurations, two settings read
   * into the templates, template rendering, HTML-to-text conversion, and the
   * URL builder that appends the token as a query parameter (`None` when the
   * base URL cannot be parsed).
   */
  datatype EmailDeps = EmailDeps(
    configs: Tokens.Configs,
    appName: string,
    supportAddress: string,
    render: (string, Placeholders) -> string,
    htmlToText: string -> string,
    urlWithToken: (string, Jwt.Token) -> Option<string>)

  /** `generateUrlWithQuery(config.url, {token})`: a configuration without a URL yields no link, as `new URL(undefined)` throws. */
  function Link(deps: EmailDeps, url: Option<string>, token: Jwt.Token): (r: Option<string>)
    ensures url.None? ==> r.None?
    ensures url.Some? ==> r == deps.urlWithToken(url.value, token)
  {
    match url
    case None => None
    case Some(base) => deps.urlWithToken(base, token)
  }

  /** The job `queueEmail` adds: the rendered HTML and its plain-text conversion, three attempts, 5000 ms backoff. */
  function Job(deps: EmailDeps, to: string, subject: string, template: string, placeholders: Placeholders): (j: EmailJob)
    ensures j.data.html == deps.render(template, placeholders)
    ensures j.data.text == deps.htmlToText(j.data.html)
    ensures j.data.to == to && j.data.subject == subject
    ensures j.attempts == 3 && j.backoff == 5000
  {
    var html := deps.render(template, placeholders);
    EmailJob(JobName, EmailData(to, subject, deps.htmlToText(html), html), JobAttempts, JobBackoff)
  }

  /**
   * The job `sendVerificationEmail` queues, or the error it catches and logs:
   * without a configuration there is no job, and a job goes to the address
   * whose token it links.
   */
  function VerificationJob(deps: EmailDeps, email: string, username: string, env: Jwt.Env): (r: Result<EmailJob, Thrown>)
    ensures "emailVerification" !in deps.configs ==> r == Err(ErrorObject(Tokens.MissingConfigMessage("emailVerification")))
    ensures r.Ok? ==> "emailVerification" in deps.configs && deps.configs["emailVerification"].url.Some?
    ensures r.Ok? ==> r.value.name == JobName && r.value.data.to == email && r.value.data.subject == "Verify Your Email"
  {
    var generated :- Tokens.GenerateWithKey(Jwt.Claims(None, None, Some(email)), deps.configs, "emailVerification", env);
    match Link(deps, generated.config.url, generated.token)
    case None => Err(ErrorObject(InvalidUrlMessage))
    case Some(link) =>
      Ok(Job(deps, email, "Verify Your Email", "email-verification",
        map["appName" := deps.appName, "username" := username,
            "verificationLink" := link, "contactSupport" := deps.supportAddress]))
  }

  /**
   * The password-reset job, with the lifetime printed by `format`: the
   * service passes `FormatExpirationTime`, the correction `FormatLifetime`.
   */
  function ResetJob(deps: EmailDeps, userId: string, username: string, email: string, env: Jwt.Env,
                    format: string -> Result<string, Thrown>): (r: Result<EmailJob, Thrown>)
    ensures "passwordReset" !in deps.configs ==> r == Err(ErrorObject(Tokens.MissingConfigMessage("passwordReset")))
    ensures r.Ok? ==> "passwordReset" in deps.configs && deps.configs["passwordReset"].url.Some?
    ensures r.Ok? ==> format(deps.configs["passwordReset"].expiresIn).Ok?
    ensures r.Ok? ==> r.value.name == JobName && r.value.data.to == email && r.value.data.subject == "Password Reset Request"
  {
    var generated :- Tokens.GenerateWithKey(Jwt.Claims(Some(userId), None, None), deps.configs, "passwordReset", env);
    match Link(deps, generated.config.url, generated.token)
    case None => Err(ErrorObject(InvalidUrlMessage))
    case Some(link) =>
      var expiresIn :- format(generated.config.expiresIn);
      Ok(Job(deps, email, "Password Reset Request", "password-reset",
        map["appName" := deps.appName, "username" := username, "resetLink" := link,
            "expiresIn" := expiresIn, "contactSupport" := deps.supportAddress]))
  }

  /**
   * The job `sendPasswordResetEmail` queues, or the error it lets through: a
   * job exists only for a lifetime of the formatter's pattern.
   */
  function PasswordResetJob(deps: EmailDeps, userId: string, username: string, email: string, env: Jwt.Env): (r: Result<EmailJob, Thrown>)
    ensures "passwordReset" !in deps.configs ==> r == Err(ErrorObject(Tokens.MissingConfigMessage("passwordReset")))
    ensures r.Ok? ==> "passwordReset" in deps.configs && MatchExpiration(deps.configs["passwordReset"].expiresIn).Some?
    ensures r.Ok? ==> r.value.data.to == email && r.value.data.subject == "Password Reset Request"
  {
    ResetJob(deps, userId, username, email, env, FormatExpirationTime)
  }

  /** The password-reset job with the corrected lifetime text. */
  function CorrectedPasswordResetJob(deps: EmailDeps, userId: string, username: string, email: string, env: Jwt.Env): Result<EmailJob, Thrown> {
    ResetJob(deps, userId, username, email, env, FormatLifetime)
  }

  /**
   * The verification email carries a link for a token that signs exactly
   * `{email}`; a missing configuration yields no job.
   */
  lemma VerificationJobContents(deps: EmailDeps, email: string, username: string, env: Jwt.Env)
    ensures "emailVerification" !in deps.configs ==> VerificationJob(deps, email, username, env).Err?
    ensures VerificationJob(deps, email, username, env).Ok? ==>
      var g := Tokens.GenerateWithKey(Jwt.Claims(None, None, Some(email)), deps.configs, "emailVerification", env);
      && g.Ok?
      && g.value.config == deps.configs["emailVerification"]
      && Jwt.Decode(g.value.token).value.claims == Jwt.Claims(None, None, Some(email))
      && Link(deps, g.value.config.url, g.value.token).Some?
      && VerificationJob(deps, email, username, env).value.data.to == email
      && VerificationJob(deps, email, username, env).value.data.html ==
        deps.render("email-verification", map["appName" := deps.appName, "username" := username,
          "verificationLink" := Link(deps, g.value.config.url, g.value.token).value,
          "contactSupport" := deps.supportAddress])
  {
  }

  /**
   * The reset email signs exactly `{sub: userId}` and prints, with `format`,
   * the lifetime of the very configuration it signed with; with a lifetime
   * of the schema's pattern and a formatter that accepts it, only the token
   * or the link can be what fails.
   */
  lemma ResetJobContents(deps: EmailDeps, userId: string, username: string, email: string, env: Jwt.Env,
                         format: string -> Result<string, Thrown>)
    ensures ResetJob(deps, userId, username, email, env, format).Ok? ==>
      var g := Tokens.GenerateWithKey(Jwt.Claims(Some(userId), None, None), deps.configs, "passwordReset", env);
      var config := deps.configs["passwordReset"];
      && g.Ok? && g.value.config == config
      && Jwt.Decode(g.value.token).value.claims == Jwt.Claims(Some(userId), None, None)
      && ResetJob(deps, userId, username, email, env, format).value.data.html ==
        deps.render("password-reset", map["appName" := deps.appName, "username" := username,
          "resetLink" := Link(deps, config.url, g.value.token).value,
          "expiresIn" := format(config.expiresIn).value,
          "contactSupport" := deps.supportAddress])
    ensures "passwordReset" in deps.configs && format(deps.configs["passwordReset"].expiresIn).Ok? &&
      Tokens.GenerateWithKey(Jwt.Claims(Some(userId), None, None), deps.configs, "passwordReset", env).Ok? &&
      Link(deps, deps.configs["passwordReset"].url,
        Tokens.GenerateWithKey(Jwt.Claims(Some(userId), None, None), deps.configs, "passwordReset", env).value.token).Some?
      ==> ResetJob(deps, userId, username, email, env, format).Ok?
  {
  }

  /**
   * What the service's reset email states about the token's lifetime, when
   * the codec reads the configured lifetime as the `ms` package does: the
   * stated duration is the token's `exp - iat`, except for a lifetime in `M`,
   * which is announced in months while the token lives that many minutes.
   */
  lemma PasswordResetJobContents(deps: EmailDeps, userId: string, username: string, email: string, env: Jwt.Env)
    ensures "passwordReset" in deps.configs && ConfigPattern(deps.configs["passwordReset"].expiresIn) &&
      Tokens.GenerateWithKey(Jwt.Claims(Some(userId), None, None), deps.configs, "passwordReset", env).Ok? &&
      Link(deps, deps.configs["passwordReset"].url,
        Tokens.GenerateWithKey(Jwt.Claims(Some(userId), None, None), deps.configs, "passwordReset", env).value.token).Some?
      ==> PasswordResetJob(deps, userId, username, email, env).Ok?
    ensures (PasswordResetJob(deps, userId, username, email, env).Ok? &&
      env.timespan(deps.configs["passwordReset"].expiresIn) == CodecLifetime(deps.configs["passwordReset"].expiresIn)) ==>
      var expiresIn := deps.configs["passwordReset"].expiresIn;
      var p := Jwt.Decode(Tokens.GenerateWithKey(Jwt.Claims(Some(userId), None, None), deps.configs, "passwordReset", env).value.token).value;
      var d := ReadDuration(FormatExpirationTime(expiresIn).value);
      && d.Some? && |expiresIn| >= 2
      && (expiresIn[|expiresIn| - 1] != 'M' ==> d.value.1 != Month && d.value.0 * UnitSeconds(d.value.1) == p.exp.value - p.iat.value)
      && (expiresIn[|expiresIn| - 1] == 'M' ==> d.value.1 == Month && p.exp.value - p.iat.value == d.value.0 * 60)
  {
    ResetJobContents(deps, userId, username, email, env, FormatExpirationTime);
    if "passwordReset" in deps.configs {
      var expiresIn := deps.configs["passwordReset"].expiresIn;
      ConfigPatternIsFormatPattern(expiresIn);
      if PasswordResetJob(deps, userId, username, email, env).Ok? && env.timespan(expiresIn) == CodecLifetime(expiresIn) {
        StatedDuration(expiresIn);
      }
    }
  }

  /**
   * The duration the formatter states for a lifetime it accepts, against the
   * lifetime the codec reads from it: equal, except that a lifetime in `M`
   * is stated in months and read in minutes.
   */
  lemma StatedDuration(expiresIn: string)
    requires FormatExpirationTime(expiresIn).Ok?
    ensures CodecLifetime(expiresIn).Some? && |expiresIn| >= 2
    ensures var d := ReadDuration(FormatExpirationTime(expiresIn).value);
      var lifetime := CodecLifetime(expiresIn).value;
      && d.Some?
      && (expiresIn[|expiresIn| - 1] != 'M' ==> d.value.1 != Month && d.value.0 * UnitSeconds(d.value.1) == lifetime)
      && (expiresIn[|expiresIn| - 1] == 'M' ==> d.value.1 == Month && lifetime == d.value.0 * 60)
  {
    var m := MatchExpiration(expiresIn).value;
    assert m.unit == expiresIn[|expiresIn| - 1];
  }

  /**
   * The corrected reset email states exactly the token's `exp - iat` for
   * every lifetime of the pattern, and differs from the service's only for
   * a lifetime in `M`.
   */
  lemma CorrectedPasswordResetJobContents(deps: EmailDeps, userId: string, username: string, email: string, env: Jwt.Env)
    ensures (CorrectedPasswordResetJob(deps, userId, username, email, env).Ok? &&
      env.timespan(deps.configs["passwordReset"].expiresIn) == CodecLifetime(deps.configs["passwordReset"].expiresIn)) ==>
      var expiresIn := deps.configs["passwordReset"].expiresIn;
      var p := Jwt.Decode(Tokens.GenerateWithKey(Jwt.Claims(Some(userId), None, None), deps.configs, "passwordReset", env).value.token).value;
      var d := ReadDuration(FormatLifetime(expiresIn).value);
      && d.Some? && d.value.1 != Month
      && d.value.0 * UnitSeconds(d.value.1) == p.exp.value - p.iat.value
    ensures ("passwordReset" !in deps.configs || |deps.configs["passwordReset"].expiresIn| == 0 ||
      deps.configs["passwordReset"].expiresIn[|deps.configs["passwordReset"].expiresIn| - 1] != 'M') ==>
      CorrectedPasswordResetJob(deps, userId, username, email, env) == PasswordResetJob(deps, userId, username, email, env)
  {
    ResetJobContents(deps, userId, username, email, env, FormatLifetime);
    if "passwordReset" in deps.configs {
      var expiresIn := deps.configs["passwordReset"].expiresIn;
      FormatLifetimeStatesCodecLifetime(expiresIn);
      ConfigPatternIsFormatPattern(expiresIn);
    }
  }

  /** The producer object: its queue grows by one job per successful send. */
  class EmailService {
    const deps: EmailDeps
    var queue: seq<EmailJob>

    constructor (deps: EmailDeps)
      ensures this.deps == deps && queue == []
    {
      this.deps := deps;
      queue := [];
    }

    /** Render the template, derive the text from the HTML and append one job. */
    method QueueEmail(to: string, subject: string, template: string, placeholders: Placeholders)
      modifies this
      ensures queue == old(queue) + [Job(deps, to, subject, template, placeholders)]
    {
      var emailTemplate := deps.render(template, placeholders);
      var job := EmailJob(JobName, EmailData(to, subject, deps.htmlToText(emailTemplate), emailTemplate), JobAttempts, JobBackoff);
      queue := queue + [job];
    }

    /** Sign `{email}`, build the link and queue the email; any failure is caught, logged and dropped. */
    method SendVerificationEmail(email: string, username: string, env: Jwt.Env)
      modifies this
      ensures var j := VerificationJob(deps, email, username, env);
        queue == old(queue) + (if j.Ok? then [j.value] else [])
    {
      var generated := Tokens.GenerateWithKey(Jwt.Claims(None, None, Some(email)), deps.configs, "emailVerification", env);
      if generated.Err? {
        return;
      }
      var verificationLink := Link(deps, generated.value.config.url, generated.value.token);
      if verificationLink.None? {
        return;
      }
      QueueEmail(email, "Verify Your Email", "email-verification",
        map["appName" := deps.appName, "username" := username,
            "verificationLink" := verificationLink.value, "contactSupport" := deps.supportAddress]);
    }

    /** Sign `{sub: userId}`, build the link, print the lifetime with `format` and queue the email; failures propagate. */
    method QueuePasswordReset(userId: string, username: string, email: string, env: Jwt.Env,
                              format: string -> Result<string, Thrown>) returns (r: Result<(), Thrown>)
      modifies this
      ensures var j := ResetJob(deps, userId, username, email, env, format);
        && (j.Ok? ==> r == Ok(()) && queue == old(queue) + [j.value])
        && (j.Err? ==> r == Err(j.error) && queue == old(queue))
    {
      var generated := Tokens.GenerateWithKey(Jwt.Claims(Some(userId), None, None), deps.configs, "passwordReset", env);
      if generated.Err? {
        return Err(generated.error);
      }
      var config := generated.value.config;
      var resetLink := Link(deps, config.url, generated.value.token);
      if resetLink.None? {
        return Err(ErrorObject(InvalidUrlMessage));
      }
      var expiresIn := format(config.expiresIn);
      if expiresIn.Err? {
        return Err(expiresIn.error);
      }
      QueueEmail(email, "Password Reset Request", "password-reset",
        map["appName" := deps.appName, "username" := username, "resetLink" := resetLink.value,
            "expiresIn" := expiresIn.value, "contactSupport" := deps.supportAddress]);
      r := Ok(());
    }

    /** `sendPasswordResetEmail`, printing the lifetime with `formatExpirationTime`. */
    method SendPasswordResetEmail(userId: string, username: string, email: string, env: Jwt.Env) returns (r: Result<(), Thrown>)
      modifies this
      ensures var j := PasswordResetJob(deps, userId, username, email, env);
        && (j.Ok? ==> r == Ok(()) && queue == old(queue) + [j.value])
        && (j.Err? ==> r == Err(j.error) && queue == old(queue))
    {
      r := QueuePasswordReset(userId, username, email, env, FormatExpirationTime);
    }

    /** The same send with the corrected lifetime text. */
    method SendCorrectedPasswordResetEmail(userId: string, username: string, email: string, env: Jwt.Env) returns (r: Result<(), Thrown>)
      modifies this
      ensures var j := CorrectedPasswordResetJob(deps, userId, username, email, env);
        && (j.Ok? ==> r == Ok(()) && queue == old(queue) + [j.value])
        && (j.Err? ==> r == Err(j.error) && queue == old(queue))
    {
      r := QueuePasswordReset(userId, username, email, env, FormatLifetime);
    }
  }
}

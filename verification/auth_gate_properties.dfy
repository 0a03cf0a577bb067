/** What the access gate promises. */
module AuthGateProperties {
  import opened Wrappers
  import opened Text
  import opened AuthGate

  /** Webhook paths pass whatever the credentials, cookie or header. */
  lemma WebhooksBypass(req: Request, env: Env, decode: string -> string)
    requires StartsWith(req.pathname, WebhookPrefix)
    ensures Decide(req, env, decode) == Pass
  {
  }

  /** Without both credentials configured: development passes, anything else is a 500. */
  lemma UnconfiguredDeployment(req: Request, env: Env, decode: string -> string)
    requires !StartsWith(req.pathname, WebhookPrefix)
    requires env.adminUser.None? || env.adminUser == Some("") || env.adminPassword.None? || env.adminPassword == Some("")
    ensures env.nodeEnv == Some("development") ==> Decide(req, env, decode) == Pass
    ensures env.nodeEnv != Some("development") ==>
      && Decide(req, env, decode) == NotConfigured
      && Status(Decide(req, env, decode)) == Some(500)
      && BodyText(Decide(req, env, decode)) == Some(NotConfiguredText)
  {
  }

  /** The session cookie passes without the header being looked at, and no cookie is set. */
  lemma SessionCookiePasses(req: Request, env: Env, decode: string -> string)
    requires Configured(env)
    requires req.cookie == Some(CookieValue)
    ensures Decide(req, env, decode) == Pass
    ensures forall header :: Decide(req.(authorization := header), env, decode) == Pass
  {
  }

  /**
   * The credentials a browser sends: `<scheme> <token>` where the token decodes to
   * `user:password`. Both fields equal to the configured ones pass and set the
   * session cookie; the scheme word itself is never checked.
   */
  lemma CorrectCredentialsAccepted(req: Request, env: Env, decode: string -> string, scheme: string, token: string)
    requires !StartsWith(req.pathname, WebhookPrefix) && Configured(env) && req.cookie != Some(CookieValue)
    requires ' ' !in scheme && ' ' !in token
    requires req.authorization == Some(scheme + " " + token)
    requires ':' !in env.adminUser.value && ':' !in env.adminPassword.value
    requires decode(token) == env.adminUser.value + ":" + env.adminPassword.value
    ensures Decide(req, env, decode) == PassWithCookie(Cookie(
      "stripe_admin_auth", "authenticated", true, env.nodeEnv == Some("production"), "lax", 604800))
  {
    SplitTwoFields(scheme, token, ' ');
    SplitTwoFields(env.adminUser.value, env.adminPassword.value, ':');
  }

  /** `scheme + " " + token` with no space in either splits into exactly those two words. */
  lemma SplitTwoFields(first: string, second: string, sep: char)
    requires sep !in first && sep !in second
    ensures Split(first + [sep] + second, sep) == [first, second]
  {
    SplitAfterField(first, second, sep);
    SplitNoSeparator(second, sep);
  }

  /**
   * Only the text between the first and second colon is compared as the password,
   * so a configured password that contains a colon never matches, although
   * section 2 of RFC 7617 allows colons in the password.
   */
  lemma ColonPasswordNeverMatches(req: Request, env: Env, decode: string -> string)
    requires env.adminPassword.Some? && ':' in env.adminPassword.value
    ensures !Decide(req, env, decode).PassWithCookie?
  {
  }

  /** The flip side: anything after a second colon is ignored, so `user:password:extra` passes too. */
  lemma TrailingFieldsIgnored(req: Request, env: Env, decode: string -> string, scheme: string, token: string, extra: string)
    requires !StartsWith(req.pathname, WebhookPrefix) && Configured(env) && req.cookie != Some(CookieValue)
    requires ' ' !in scheme && ' ' !in token
    requires req.authorization == Some(scheme + " " + token)
    requires ':' !in env.adminUser.value && ':' !in env.adminPassword.value
    requires decode(token) == env.adminUser.value + ":" + env.adminPassword.value + ":" + extra
    ensures Decide(req, env, decode).PassWithCookie?
  {
    SplitTwoFields(scheme, token, ' ');
    var user, password := env.adminUser.value, env.adminPassword.value;
    assert decode(token) == user + [':'] + (password + [':'] + extra);
    SplitAfterField(user, password + [':'] + extra, ':');
    SplitAfterField(password, extra, ':');
  }

  /**
   * Exactly the Basic branch sets the cookie: a passing decision with a cookie
   * implies the credentials matched, and the bypass and cookie branches never set one.
   */
  lemma CookieOnlyFromCredentials(req: Request, env: Env, decode: string -> string)
    ensures Decide(req, env, decode).PassWithCookie? <==>
      && !StartsWith(req.pathname, WebhookPrefix) && Configured(env) && req.cookie != Some(CookieValue)
      && Truthy(req.authorization)
      && var fields := CredentialFields(req.authorization.value, decode);
         fields.Some? && Matches(fields.value, env.adminUser.value, env.adminPassword.value)
  {
  }

  /**
   * Everything else on a configured deployment is a 401 with the Basic challenge:
   * no header, or credentials that do not match.
   */
  lemma OtherwiseChallenged(req: Request, env: Env, decode: string -> string)
    requires !StartsWith(req.pathname, WebhookPrefix) && Configured(env) && req.cookie != Some(CookieValue)
    requires !Truthy(req.authorization) ||
      (var fields := CredentialFields(req.authorization.value, decode);
       fields.Some? && !Matches(fields.value, env.adminUser.value, env.adminPassword.value))
    ensures Decide(req, env, decode) == Challenge
    ensures Status(Decide(req, env, decode)) == Some(401)
    ensures Authenticate(Decide(req, env, decode)) == Some("Basic realm=\"Stripe Admin\"")
  {
  }

  /** A non-empty header without a space throws instead of answering 401. */
  lemma HeaderWithoutSpaceThrows(req: Request, env: Env, decode: string -> string)
    requires !StartsWith(req.pathname, WebhookPrefix) && Configured(env) && req.cookie != Some(CookieValue)
    requires Truthy(req.authorization) && ' ' !in req.authorization.value
    ensures Decide(req, env, decode) == Crash
  {
    SplitNoSeparator(req.authorization.value, ' ');
  }
}

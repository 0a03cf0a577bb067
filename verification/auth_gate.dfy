/**
 * The access gate that runs in front of every page: webhook paths pass, an
 * unconfigured deployment passes only in development, a session cookie passes,
 * and otherwise HTTP Basic credentials (section 2 of RFC 7617) are compared with
 * the configured ones.
 */
module AuthGate {
  import opened Wrappers
  import opened Text

  const WebhookPrefix := "/api/webhooks"
  const CookieName := "stripe_admin_auth"
  const CookieValue := "authenticated"
  /** Seven days, in seconds. */
  const CookieMaxAge: nat := 60 * 60 * 24 * 7
  const ChallengeHeader := "Basic realm=\"Stripe Admin\""
  const NotConfiguredText := "Autenticación no configurada"
  const RequiredText := "Autenticación requerida"

  /** The deployment's environment: `ADMIN_USER`, `ADMIN_PASSWORD`, `NODE_ENV`. */
  datatype Env = Env(adminUser: Option<string>, adminPassword: Option<string>, nodeEnv: Option<string>)

  /** What the gate looks at: the path, the `stripe_admin_auth` cookie and the `authorization` header. */
  datatype Request = Request(pathname: string, cookie: Option<string>, authorization: Option<string>)

  datatype Cookie = Cookie(name: string, value: string, httpOnly: bool, secure: bool, sameSite: string, maxAge: nat)

  /**
   * `Pass` lets the request through untouched; `PassWithCookie` lets it through and
   * sets the session cookie; `NotConfigured` and `Challenge` answer directly;
   * `Crash` is the error thrown when the header has no second space-separated field.
   */
  datatype Decision =
    | Pass
    | PassWithCookie(cookie: Cookie)
    | NotConfigured
    | Challenge
    | Crash

  /** The status the gate answers with itself; `None` when the request goes on or the gate throws. */
  function Status(d: Decision): Option<nat>
  {
    match d
    case NotConfigured => Some(500)
    case Challenge => Some(401)
    case _ => None
  }

  /** The `WWW-Authenticate` header of the answer, if any. */
  function Authenticate(d: Decision): Option<string>
  {
    if d.Challenge? then Some(ChallengeHeader) else None
  }

  function BodyText(d: Decision): Option<string>
  {
    match d
    case NotConfigured => Some(NotConfiguredText)
    case Challenge => Some(RequiredText)
    case _ => None
  }

  /** JavaScript truthiness of an optional string: present and not empty. */
  predicate Truthy(v: Option<string>)
  {
    v.Some? && v.value != ""
  }

  predicate Configured(env: Env)
  {
    Truthy(env.adminUser) && Truthy(env.adminPassword)
  }

  function SessionCookie(env: Env): Cookie
  {
    Cookie(CookieName, CookieValue, true, env.nodeEnv == Some("production"), "lax", CookieMaxAge)
  }

  /**
   * The `:`-fields of the decoded credentials, or `None` when the header has no
   * second space-separated field. `decode` stands for base64 decoding to ASCII.
   */
  function CredentialFields(header: string, decode: string -> string): Option<seq<string>>
  {
    var words := Split(header, ' ');
    if |words| < 2 then None else Some(Split(decode(words[1]), ':'))
  }

  /** Destructuring `[username, password]`: a missing second field is `undefined` and equals no string. */
  predicate Matches(fields: seq<string>, user: string, password: string)
  {
    |fields| >= 2 && fields[0] == user && fields[1] == password
  }

  function Decide(req: Request, env: Env, decode: string -> string): (d: Decision)
    ensures StartsWith(req.pathname, WebhookPrefix) ==> d == Pass
    ensures d == NotConfigured ==> !Configured(env) && env.nodeEnv != Some("development")
    ensures d.PassWithCookie? ==>
      && !StartsWith(req.pathname, WebhookPrefix) && Configured(env)
      && req.cookie != Some(CookieValue) && Truthy(req.authorization)
      && d.cookie == SessionCookie(env)
    ensures d.Crash? ==> Truthy(req.authorization) && ' ' !in req.authorization.value
  {
    if StartsWith(req.pathname, WebhookPrefix) then Pass
    else if !Configured(env) then
      if env.nodeEnv == Some("development") then Pass else NotConfigured
    else if req.cookie == Some(CookieValue) then Pass
    else if Truthy(req.authorization) then
      match CredentialFields(req.authorization.value, decode)
      case None =>
        SplitNoSeparatorOnly(req.authorization.value, ' ');
        Crash
      case Some(fields) =>
        if Matches(fields, env.adminUser.value, env.adminPassword.value) then PassWithCookie(SessionCookie(env))
        else Challenge
    else Challenge
  }

  /** A text splits into a single field exactly when it holds no separator. */
  lemma SplitNoSeparatorOnly(s: string, sep: char)
    ensures |Split(s, sep)| < 2 <==> sep !in s
  {
    if sep in s {
      var i :| 0 <= i < |s| && s[i] == sep;
      SplitAt(s, sep, i);
    } else {
      SplitNoSeparator(s, sep);
    }
  }

  lemma {:induction false} SplitAt(s: string, sep: char, i: nat)
    requires i < |s| && s[i] == sep
    ensures |Split(s, sep)| >= 2
  {
    if s[0] != sep {
      SplitAt(s[1..], sep, i - 1);
    }
  }
}

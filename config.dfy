/** Process configuration read from the environment.  The three provider
    settings and the signing secret are taken as given (the source asserts they
    are set); the cookie name and the front-end origin have defaults that apply
    only when the variable is not set at all (`??`). */
module Config {
  import opened Wrappers

  datatype Env = Env(
    clientId: string,
    clientSecret: string,
    redirectUri: string,
    jwtSecret: string,
    cookieName: Option<string>,
    corsOrigin: Option<string>)

  /** `process.env.COOKIE_NAME ?? 'sp_session'`. */
  function CookieName(env: Env): (name: string)
    ensures env.cookieName.None? ==> name == "sp_session"
    ensures env.cookieName.Some? ==> name == env.cookieName.value
  {
    env.cookieName.GetOr("sp_session")
  }

  /** `process.env.CORS_ORIGIN ?? 'http://127.0.0.1:3000'`. */
  function FrontendOrigin(env: Env): (origin: string)
    ensures env.corsOrigin.None? ==> origin == "http://127.0.0.1:3000"
    ensures env.corsOrigin.Some? ==> origin == env.corsOrigin.value
  {
    env.corsOrigin.GetOr("http://127.0.0.1:3000")
  }

  /** The text that HTTP Basic client authentication (section 2.3.1 of
      RFC 6749) encodes: `client_id:client_secret`. */
  function ClientCredentials(env: Env): (c: string)
    ensures |c| == |env.clientId| + 1 + |env.clientSecret|
    ensures c[..|env.clientId|] == env.clientId && c[|env.clientId|] == ':'
    ensures c[|env.clientId| + 1..] == env.clientSecret
  {
    env.clientId + ":" + env.clientSecret
  }
}

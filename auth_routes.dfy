/** The `/auth` router: login redirect, authorization-code callback, credential
    refresh and logout.  Each handler is a function of the request, the
    configuration, the clock, and the reply the provider gave to the call the
    handler made. */
module AuthRoutes {
  import opened Wrappers
  import opened Http
  import opened Session
  import opened Config
  import opened Responses
  import Jwt
  import Strings
  import AuthService

  /** The scope list written out in the `/login` handler, in its order. */
  const LoginScopes := ["user-read-email", "user-read-private", "playlist-read-private",
                        "playlist-modify-private", "playlist-modify-public", "user-top-read"]

  /** The query of the `/login` redirect, in the order it is built. */
  function LoginParams(env: Env): seq<Param>
  {
    [Param(ResponseType, Text("code")), Param(ClientId, Text(env.clientId)),
     Param(Scope, Text(Strings.Join(LoginScopes, ' '))), Param(RedirectUri, Text(env.redirectUri))]
  }

  /** GET `/login`: a redirect to the provider's authorization endpoint, with
      no cookie and no upstream call. */
  function Login(env: Env): (r: Response)
    ensures r.status == 302 && r.cookie.None? && r.body == Empty
    ensures r.location.Some? && r.location.value.base == AuthService.AccountsBase && r.location.value.path == "authorize"
    ensures Keys(r.location.value.query) == [ResponseType, ClientId, Scope, RedirectUri]
    ensures r.location.value.query[0].value == Text("code")
    ensures r.location.value.query[1].value == Text(env.clientId)
    ensures r.location.value.query[3].value == Text(env.redirectUri)
  {
    Response(302, Empty, None, Some(Url(AuthService.AccountsBase, "authorize", LoginParams(env))))
  }

  /** The route's scope list is the service's, and `/login` sends the browser
      exactly where `generateAuthorizationUrl` points. */
  lemma LoginAgreesWithService(env: Env)
    ensures LoginScopes == AuthService.Scopes
    ensures Login(env).location == Some(AuthService.GenerateAuthorizationUrl(env))
  {
  }

  /** The `/login` scope value splits back into the six scopes. */
  lemma LoginScopesRoundTrip(env: Env)
    ensures Login(env).location.value.query[2].value.Text?
    ensures Strings.Split(Login(env).location.value.query[2].value.s, ' ') == AuthService.Scopes
  {
    LoginAgreesWithService(env);
    AuthService.ScopesRoundTrip();
  }

  /** `String(req.query.code ?? '')`. */
  function CodeParam(code: Option<string>): (c: string)
    ensures c == "" <==> code.None? || code.value == ""
    ensures code.Some? ==> c == code.value
  {
    code.GetOr("")
  }

  /** The token-endpoint POST the route builds itself. */
  function TokenPostOf(env: Env, form: seq<Param>): Outbound
  {
    TokenPost(AuthService.TokenEndpoint, AuthService.FormContentType, form, Basic(ClientCredentials(env)))
  }

  /** The authorization-code grant the callback sends. */
  function CodeGrant(env: Env, code: string): Outbound
  {
    TokenPostOf(env, [Param(GrantType, Text("authorization_code")), Param(Code, Text(code)),
                      Param(RedirectUri, Text(env.redirectUri))])
  }

  /** The refresh grant the refresh handler sends. */
  function RefreshGrant(env: Env, refreshToken: string): Outbound
  {
    TokenPostOf(env, [Param(GrantType, Text("refresh_token")), Param(RefreshToken, Text(refreshToken))])
  }

  /** Both grants are the very requests `AuthService` builds. */
  lemma GrantsAgreeWithService(env: Env, code: string, refreshToken: string, reply: Upstream<TokenResponse>)
    ensures CodeGrant(env, code) == AuthService.ExchangeCodeForToken(env, code, reply).request
    ensures RefreshGrant(env, refreshToken) == AuthService.RefreshAccessToken(env, refreshToken, reply).request
  {
  }

  /** The cookie a handler writes after signing `p` at `now` for a provider
      lifetime of `expiresIn`: the session cookie, httpOnly, SameSite=Lax,
      path `/`, alive for `expiresIn` seconds, and holding a token that yields
      `p` for exactly the first 90% of that time. */
  ghost predicate CarriesSession(c: CookieOp, env: Env, now: int, p: Payload, expiresIn: int)
  {
    && c.SetCookie?
    && c.name == CookieName(env)
    && c.attrs == CookieAttrs(true, false, Lax, "/")
    && c.maxAge == expiresIn * 1000
    && forall t :: Jwt.Check(c.value, env.jwtSecret, t)
                   == if t < now + Lifetime(expiresIn) then Valid(p) else Invalid
  }

  /** Sign `p` with the configured secret and wrap it in the session cookie. */
  function IssueCookie(env: Env, now: int, p: Payload, expiresIn: int): (c: CookieOp)
    ensures CarriesSession(c, env, now, p, expiresIn)
  {
    var cred := Credential(p, Lifetime(expiresIn));
    SignedWindow(env.jwtSecret, now, cred);
    SetCookie(CookieName(env), Jwt.Sign(env.jwtSecret, now, cred), SessionCookieAttrs, CookieMaxAge(expiresIn))
  }

  /** The validity window of a freshly signed credential, at every instant. */
  lemma SignedWindow(key: string, now: int, cred: Credential)
    ensures forall t :: Jwt.Check(Jwt.Sign(key, now, cred), key, t)
                        == if t < now + cred.expiresIn then Valid(cred.payload) else Invalid
  {
    forall t ensures Jwt.Check(Jwt.Sign(key, now, cred), key, t)
                     == if t < now + cred.expiresIn then Valid(cred.payload) else Invalid {
      Jwt.SignThenCheck(key, now, cred, t);
    }
  }

  /** GET `/callback`.  No code: 400 `missing_code` and nothing else.  With a
      code: one authorization-code grant; if the provider refuses, the request
      fails with the framework's 500 page (the handler does not catch); if it
      answers, the browser gets the session cookie and a redirect to the
      front end. */
  function Callback(env: Env, now: int, code: Option<string>, reply: Upstream<TokenResponse>): (o: Outcome)
    ensures CodeParam(code) == "" ==> o == Outcome(Fail(400, "missing_code"), [])
    ensures CodeParam(code) != "" ==> o.calls == [CodeGrant(env, CodeParam(code))]
    ensures CodeParam(code) != "" && reply.Err? ==> o.response == Response(500, ServerError, None, None)
    ensures CodeParam(code) != "" && reply.Ok? ==>
              && o.response.status == 302
              && o.response.location == Some(Url(FrontendOrigin(env), "", []))
              && o.response.cookie.Some?
              && CarriesSession(o.response.cookie.value, env, now,
                                Payload(reply.data.access_token, reply.data.refresh_token),
                                reply.data.expires_in)
  {
    var c := CodeParam(code);
    if c == "" then Outcome(Fail(400, "missing_code"), [])
    else
      var call := [CodeGrant(env, c)];
      match reply
      case Err => Outcome(Response(500, ServerError, None, None), call)
      case Ok(data) =>
        var p := Payload(data.access_token, data.refresh_token);
        var cookie := IssueCookie(env, now, p, data.expires_in);
        Outcome(Response(302, Empty, Some(cookie), Some(Url(FrontendOrigin(env), "", []))), call)
  }

  /** The callback's cookie holds the token `createJWTToken` would make from the
      same reply. */
  lemma CallbackAgreesWithService(env: Env, now: int, code: string, data: TokenResponse)
    requires code != ""
    ensures Callback(env, now, Some(code), Ok(data)).response.cookie.value.value
         == AuthService.SignedToken(env, now, data)
  {
  }

  /** POST `/refresh`.  No cookie: 401 `no_session`.  A cookie that does not
      verify, or a refused refresh grant: 401 `refresh_failed`.  Otherwise a new
      credential with the provider's new access token and the refresh token of
      the credential presented, and `{ok: true}`. */
  function Refresh(env: Env, now: int, cookie: Option<Jwt.Token>, reply: Upstream<TokenResponse>): (o: Outcome)
    ensures !Present(cookie) ==> o == Outcome(Fail(401, "no_session"), [])
    ensures Present(cookie) && Jwt.Check(cookie.value, env.jwtSecret, now).Invalid? ==>
              o == Outcome(Fail(401, "refresh_failed"), [])
    ensures Present(cookie) && Jwt.Check(cookie.value, env.jwtSecret, now).Valid? ==>
              var prev := Jwt.Check(cookie.value, env.jwtSecret, now).payload;
              && o.calls == [RefreshGrant(env, prev.refresh_token)]
              && (reply.Err? ==> o.response == Fail(401, "refresh_failed"))
              && (reply.Ok? ==>
                    && o.response.status == 200 && o.response.body == OkFlag
                    && o.response.location.None? && o.response.cookie.Some?
                    && CarriesSession(o.response.cookie.value, env, now,
                                      Payload(reply.data.access_token, prev.refresh_token),
                                      reply.data.expires_in))
  {
    if !Present(cookie) then Outcome(Fail(401, "no_session"), [])
    else
      match Jwt.Check(cookie.value, env.jwtSecret, now)
      case Invalid => Outcome(Fail(401, "refresh_failed"), [])
      case Valid(decoded) =>
        var call := [RefreshGrant(env, decoded.refresh_token)];
        match reply
        case Err => Outcome(Fail(401, "refresh_failed"), call)
        case Ok(data) =>
          var p := Payload(data.access_token, decoded.refresh_token);
          Outcome(Response(200, OkFlag, Some(IssueCookie(env, now, p, data.expires_in)), None), call)
  }

  /** POST `/logout`: whatever the request, 200 with the fixed message and the
      session cookie cleared with the attributes it was set with. */
  function Logout(env: Env, cookie: Option<Jwt.Token>): (o: Outcome)
    ensures o.calls == []
    ensures o.response.status == 200 && o.response.body == OkMessage("Logged out successfully")
    ensures o.response.cookie == Some(ClearCookie(CookieName(env), CookieAttrs(true, false, Lax, "/")))
    ensures o.response.location.None?
  {
    Outcome(Response(200, OkMessage("Logged out successfully"),
                     Some(ClearCookie(CookieName(env), SessionCookieAttrs)), None), [])
  }

  /** Logging out does not depend on the session presented. */
  lemma LogoutIgnoresSession(env: Env, a: Option<Jwt.Token>, b: Option<Jwt.Token>)
    ensures Logout(env, a) == Logout(env, b)
  {
  }

  /** A session from the callback, presented to `/refresh` while it lives,
      sends the provider's original refresh token; the re-issued credential
      keeps that refresh token whatever the provider's refresh reply holds. */
  lemma {:induction false} RefreshKeepsRefreshToken(env: Env, signedAt: int, code: string, first: TokenResponse,
                                                    now: int, second: TokenResponse)
    requires code != ""
    requires now < signedAt + Lifetime(first.expires_in)
    ensures var c := Callback(env, signedAt, Some(code), Ok(first)).response.cookie.value.value;
            var o := Refresh(env, now, Some(c), Ok(second));
            && o.calls == [RefreshGrant(env, first.refresh_token)]
            && o.response.status == 200
            && CarriesSession(o.response.cookie.value, env, now,
                              Payload(second.access_token, first.refresh_token), second.expires_in)
  {
    var c := Callback(env, signedAt, Some(code), Ok(first)).response.cookie.value;
    assert Jwt.Check(c.value, env.jwtSecret, now) == Valid(Payload(first.access_token, first.refresh_token));
    assert c.value != Jwt.Garbage("");
  }

  /** Once the 90% lifetime of the callback's credential has passed, `/refresh`
      refuses it without asking the provider, although the browser still holds
      the cookie: an expired credential cannot be refreshed. */
  lemma {:induction false} ExpiredSessionCannotRefresh(env: Env, signedAt: int, code: string, first: TokenResponse,
                                                       now: int, reply: Upstream<TokenResponse>)
    requires code != ""
    requires 0 <= first.expires_in
    requires signedAt + Lifetime(first.expires_in) <= now < signedAt + first.expires_in
    ensures var cookie := Callback(env, signedAt, Some(code), Ok(first)).response.cookie.value;
            cookie.maxAge > (now - signedAt) * 1000
    ensures Refresh(env, now, Some(Callback(env, signedAt, Some(code), Ok(first)).response.cookie.value.value), reply)
         == Outcome(Fail(401, "refresh_failed"), [])
  {
    var c := Callback(env, signedAt, Some(code), Ok(first)).response.cookie.value;
    assert Jwt.Check(c.value, env.jwtSecret, now) == Invalid;
    assert c.value != Jwt.Garbage("");
  }
}

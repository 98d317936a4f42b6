/** `AuthService`: the provider-facing token operations as a stand-alone
    service (no fields; each method builds one request or one value). */
module AuthService {
  import opened Wrappers
  import opened Http
  import opened Session
  import opened Config
  import Jwt
  import Strings

  const AccountsBase := "https://accounts.spotify.com"
  const TokenEndpoint := Url(AccountsBase, "api/token", [])
  const FormContentType := "application/x-www-form-urlencoded"

  /** The scopes `generateAuthorizationUrl` asks for, in its order. */
  const Scopes := ["user-read-email", "user-read-private", "playlist-read-private",
                   "playlist-modify-private", "playlist-modify-public", "user-top-read"]

  /** A form POST to the token endpoint with client authentication. */
  function TokenRequest(env: Env, form: seq<Param>): Outbound
  {
    TokenPost(TokenEndpoint, FormContentType, form, Basic(ClientCredentials(env)))
  }

  /** `exchangeCodeForToken(code)`: the authorization-code grant of section
      4.1.3 of RFC 6749; the provider's reply is handed back unchanged. */
  function ExchangeCodeForToken(env: Env, code: string, reply: Upstream<TokenResponse>): (c: Call<TokenResponse>)
    ensures c.request.TokenPost? && c.request.endpoint == TokenEndpoint
    ensures c.request.contentType == FormContentType
    ensures c.request.auth == Basic(env.clientId + ":" + env.clientSecret)
    ensures Keys(c.request.form) == [GrantType, Code, RedirectUri]
    ensures c.request.form[0].value == Text("authorization_code")
    ensures c.request.form[1].value == Text(code)
    ensures c.request.form[2].value == Text(env.redirectUri)
    ensures c.result == reply
  {
    var form := [Param(GrantType, Text("authorization_code")), Param(Code, Text(code)),
                 Param(RedirectUri, Text(env.redirectUri))];
    Call(TokenRequest(env, form), reply)
  }

  /** `refreshAccessToken(refreshToken)`: the refresh grant of section 6 of
      RFC 6749; the reply is handed back unchanged. */
  function RefreshAccessToken(env: Env, refreshToken: string, reply: Upstream<TokenResponse>): (c: Call<TokenResponse>)
    ensures c.request.TokenPost? && c.request.endpoint == TokenEndpoint
    ensures c.request.contentType == FormContentType
    ensures c.request.auth == Basic(env.clientId + ":" + env.clientSecret)
    ensures Keys(c.request.form) == [GrantType, RefreshToken]
    ensures c.request.form[0].value == Text("refresh_token")
    ensures c.request.form[1].value == Text(refreshToken)
    ensures c.result == reply
  {
    var form := [Param(GrantType, Text("refresh_token")), Param(RefreshToken, Text(refreshToken))];
    Call(TokenRequest(env, form), reply)
  }

  /** `createJWTToken(tokens)`: keeps only the two provider tokens and gives the
      credential 90% of the provider's lifetime, rounded down. */
  function CreateJwtToken(tokens: TokenResponse): (cred: Credential)
    ensures cred.payload.access_token == tokens.access_token
    ensures cred.payload.refresh_token == tokens.refresh_token
    ensures 10 * cred.expiresIn <= 9 * tokens.expires_in < 10 * cred.expiresIn + 10
  {
    Credential(Payload(tokens.access_token, tokens.refresh_token), Lifetime(tokens.expires_in))
  }

  /** The signed token `createJWTToken` returns when called at clock time `now`. */
  function SignedToken(env: Env, now: int, tokens: TokenResponse): (t: Jwt.Token)
    ensures t.Signed? && t.key == env.jwtSecret && t.iat == now
    ensures t.payload == Payload(tokens.access_token, tokens.refresh_token)
    ensures t.exp == now + Lifetime(tokens.expires_in)
  {
    Jwt.Sign(env.jwtSecret, now, CreateJwtToken(tokens))
  }

  /** `verifyJWTToken(token)` at clock time `now`. */
  function VerifyJwtToken(env: Env, token: Jwt.Token, now: int): (r: Verify<Payload>)
    ensures r.Valid? <==> token.Signed? && token.key == env.jwtSecret && now < token.exp
    ensures r.Valid? ==> r.payload == token.payload
  {
    Jwt.Check(token, env.jwtSecret, now)
  }

  /** `extractAccessToken(token)`: the access token of the verified payload;
      it fails exactly when verification fails. */
  function ExtractAccessToken(env: Env, token: Jwt.Token, now: int): (r: Option<string>)
    ensures r.None? <==> VerifyJwtToken(env, token, now).Invalid?
    ensures r.Some? ==> r.value == VerifyJwtToken(env, token, now).payload.access_token
  {
    match VerifyJwtToken(env, token, now)
    case Valid(p) => Some(p.access_token)
    case Invalid => None
  }

  /** The token made by `createJWTToken` yields the provider's access token
      while it lives, and nothing once its 90% lifetime has run out. */
  lemma {:induction false} ExtractAfterCreate(env: Env, signedAt: int, tokens: TokenResponse, now: int)
    ensures ExtractAccessToken(env, SignedToken(env, signedAt, tokens), now)
         == if now < signedAt + Lifetime(tokens.expires_in) then Some(tokens.access_token) else None
  {
    Jwt.SignThenCheck(env.jwtSecret, signedAt, CreateJwtToken(tokens), now);
  }

  /** The query of the authorization request (section 4.1.1 of RFC 6749). */
  function AuthorizationParams(env: Env): seq<Param>
  {
    [Param(ResponseType, Text("code")), Param(ClientId, Text(env.clientId)),
     Param(Scope, Text(ScopeText())), Param(RedirectUri, Text(env.redirectUri))]
  }

  /** The `scope` value: the scopes separated by single spaces. */
  function ScopeText(): string
  {
    Strings.Join(Scopes, ' ')
  }

  /** `generateAuthorizationUrl()`. */
  function GenerateAuthorizationUrl(env: Env): (u: Url)
    ensures u.base == AccountsBase && u.path == "authorize" && |u.query| == 4
    ensures Keys(u.query) == [ResponseType, ClientId, Scope, RedirectUri]
    ensures u.query[0].value == Text("code")
    ensures u.query[1].value == Text(env.clientId)
    ensures u.query[2].value == Text(ScopeText())
    ensures u.query[3].value == Text(env.redirectUri)
  {
    Url(AccountsBase, "authorize", AuthorizationParams(env))
  }

  /** The six scopes survive the space-joined encoding intact. */
  lemma ScopesRoundTrip()
    ensures Strings.Split(ScopeText(), ' ') == Scopes
  {
    forall i | 0 <= i < |Scopes| ensures ' ' !in Scopes[i] {
    }
    Strings.SplitJoin(Scopes, ' ');
  }
}

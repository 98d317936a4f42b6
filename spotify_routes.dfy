/** The `/api` router: three relayed GETs and playlist creation, each behind
    the session credential.  Every failure of a GET, whatever its cause, is
    401 `unauthorized`; every failure of the creation is 400 `create_failed`. */
module SpotifyRoutes {
  import opened Wrappers
  import opened Http
  import opened Session
  import opened Config
  import opened Responses
  import Jwt
  import AuthService
  import AuthRoutes
  import SpotifyService

  const ApiBase := "https://api.spotify.com/v1"

  /** `getBearerFromCookie(cookie)`: the access token of a present cookie that
      verifies; nothing otherwise. */
  function BearerFromCookie(env: Env, now: int, cookie: Option<Jwt.Token>): (r: Option<string>)
    ensures r.Some? <==> Present(cookie) && Jwt.Check(cookie.value, env.jwtSecret, now).Valid?
    ensures r.Some? ==> r.value == Jwt.Check(cookie.value, env.jwtSecret, now).payload.access_token
  {
    if !Present(cookie) then None
    else
      match Jwt.Check(cookie.value, env.jwtSecret, now)
      case Valid(decoded) => Some(decoded.access_token)
      case Invalid => None
  }

  /** For a cookie that is there, the route helper and `extractAccessToken`
      agree. */
  lemma BearerAgreesWithService(env: Env, now: int, token: Jwt.Token)
    requires token != Jwt.Garbage("")
    ensures BearerFromCookie(env, now, Some(token)) == AuthService.ExtractAccessToken(env, token, now)
  {
  }

  /** The shared shape of the three GET handlers: with a bearer token, one GET
      of `url(token)`; the reply is relayed with 200, any failure is 401. */
  function RelayGet(bearer: Option<string>, url: Url, reply: Upstream<Json>): (o: Outcome)
    ensures bearer.None? ==> o == Outcome(Fail(401, "unauthorized"), [])
    ensures bearer.Some? ==> o.calls == [ApiGet(url, Bearer(bearer.value))]
    ensures bearer.Some? && reply.Ok? ==> o.response == Response(200, Relay(reply.data), None, None)
    ensures bearer.Some? && reply.Err? ==> o.response == Fail(401, "unauthorized")
  {
    match bearer
    case None => Outcome(Fail(401, "unauthorized"), [])
    case Some(token) =>
      var call := [ApiGet(url, Bearer(token))];
      match reply
      case Ok(data) => Outcome(Response(200, Relay(data), None, None), call)
      case Err => Outcome(Fail(401, "unauthorized"), call)
  }

  /** `Number(req.query.x ?? d)`; the conversion of non-numeric text to `NaN`
      is not modelled, so a given value is already a number. */
  function NumberParam(q: Option<int>, default: int): (n: int)
    ensures q.Some? ==> n == q.value
    ensures q.None? ==> n == default
  {
    q.GetOr(default)
  }

  /** GET `/me`. */
  function Me(env: Env, now: int, cookie: Option<Jwt.Token>, reply: Upstream<Json>): (o: Outcome)
    ensures BearerFromCookie(env, now, cookie).None? ==> o == Outcome(Fail(401, "unauthorized"), [])
    ensures BearerFromCookie(env, now, cookie).Some? ==>
              o.calls == [ApiGet(Url(ApiBase, "me", []), Bearer(BearerFromCookie(env, now, cookie).value))]
    ensures o.response.status == 200 <==> BearerFromCookie(env, now, cookie).Some? && reply.Ok?
    ensures o.response.status == 200 ==> o.response == Response(200, Relay(reply.data), None, None)
    ensures o.response.status != 200 ==> o.response == Fail(401, "unauthorized")
  {
    RelayGet(BearerFromCookie(env, now, cookie), Url(ApiBase, "me", []), reply)
  }

  /** GET `/top-artists`: `limit` (default 20) and `offset` (default 0), in that
      order; `time_range` is not forwarded. */
  function TopArtists(env: Env, now: int, cookie: Option<Jwt.Token>, limit: Option<int>, offset: Option<int>,
                      reply: Upstream<Json>): (o: Outcome)
    ensures BearerFromCookie(env, now, cookie).None? ==> o == Outcome(Fail(401, "unauthorized"), [])
    ensures BearerFromCookie(env, now, cookie).Some? ==>
              && |o.calls| == 1 && o.calls[0].ApiGet?
              && o.calls[0].auth == Bearer(BearerFromCookie(env, now, cookie).value)
              && o.calls[0].url.base == ApiBase && o.calls[0].url.path == "me/top/artists"
              && Keys(o.calls[0].url.query) == [Limit, Offset]
              && o.calls[0].url.query[0].value == Number(if limit.Some? then limit.value else 20)
              && o.calls[0].url.query[1].value == Number(if offset.Some? then offset.value else 0)
    ensures o.response.status == 200 <==> BearerFromCookie(env, now, cookie).Some? && reply.Ok?
    ensures o.response.status == 200 ==> o.response == Response(200, Relay(reply.data), None, None)
    ensures o.response.status != 200 ==> o.response == Fail(401, "unauthorized")
  {
    var q := [Param(Limit, Number(NumberParam(limit, 20))), Param(Offset, Number(NumberParam(offset, 0)))];
    RelayGet(BearerFromCookie(env, now, cookie), Url(ApiBase, "me/top/artists", q), reply)
  }

  /** GET `/playlists`: `limit` (default 20) and `offset` (default 0). */
  function Playlists(env: Env, now: int, cookie: Option<Jwt.Token>, limit: Option<int>, offset: Option<int>,
                     reply: Upstream<Json>): (o: Outcome)
    ensures BearerFromCookie(env, now, cookie).None? ==> o == Outcome(Fail(401, "unauthorized"), [])
    ensures BearerFromCookie(env, now, cookie).Some? ==>
              && |o.calls| == 1 && o.calls[0].ApiGet?
              && o.calls[0].auth == Bearer(BearerFromCookie(env, now, cookie).value)
              && o.calls[0].url.base == ApiBase && o.calls[0].url.path == "me/playlists"
              && Keys(o.calls[0].url.query) == [Limit, Offset]
              && o.calls[0].url.query[0].value == Number(if limit.Some? then limit.value else 20)
              && o.calls[0].url.query[1].value == Number(if offset.Some? then offset.value else 0)
    ensures o.response.status == 200 <==> BearerFromCookie(env, now, cookie).Some? && reply.Ok?
    ensures o.response.status == 200 ==> o.response == Response(200, Relay(reply.data), None, None)
    ensures o.response.status != 200 ==> o.response == Fail(401, "unauthorized")
  {
    var q := [Param(Limit, Number(NumberParam(limit, 20))), Param(Offset, Number(NumberParam(offset, 0)))];
    RelayGet(BearerFromCookie(env, now, cookie), Url(ApiBase, "me/playlists", q), reply)
  }

  /** The three GET routes send the same requests as the service methods,
      except that `/top-artists` drops the service's `time_range`. */
  lemma GetRoutesAgreeWithService(env: Env, now: int, cookie: Option<Jwt.Token>, l: Option<int>, off: Option<int>,
                                  reply: Upstream<Json>)
    requires BearerFromCookie(env, now, cookie).Some?
    ensures var token := BearerFromCookie(env, now, cookie).value;
            Me(env, now, cookie, reply).calls == [SpotifyService.GetUserProfile(token, reply).request]
    ensures var token := BearerFromCookie(env, now, cookie).value;
            Playlists(env, now, cookie, l, off, reply).calls
              == [SpotifyService.GetUserPlaylists(token, SpotifyService.PageParams(l, off), reply).request]
    ensures var token := BearerFromCookie(env, now, cookie).value;
            var svc := SpotifyService.GetTopArtists(token, SpotifyService.TopArtistsParams(l, off, None), reply).request;
            TopArtists(env, now, cookie, l, off, reply).calls
              == [ApiGet(Url(svc.url.base, svc.url.path, svc.url.query[..2]), svc.auth)]
  {
    var token := BearerFromCookie(env, now, cookie).value;
    var svc := SpotifyService.GetTopArtists(token, SpotifyService.TopArtistsParams(l, off, None), reply).request;
    assert svc.url.query[..2] == [Param(Limit, Number(NumberParam(l, 20))), Param(Offset, Number(NumberParam(off, 0)))];
  }

  /** The JSON body of POST `/playlists`; a field the client left out is
      `None` (`undefined`).  A request without a JSON body at all, whose
      `req.body` is `undefined`, is passed as `None` in place of the whole. */
  datatype CreateRequest = CreateRequest(name: Option<string>, description: Option<string>, isPublic: JsonValue)

  /** The part of the provider's profile the creation uses. */
  datatype Profile = Profile(id: string)

  /** POST `/playlists`: profile lookup first, then the creation under the
      profile's id; 201 with the provider's playlist, or 400 `create_failed`
      on any failure, a missing session included.  The creation is not
      attempted when the profile lookup fails, nor when the request has no
      body: destructuring `undefined` throws after the lookup. */
  function CreatePlaylist(env: Env, now: int, cookie: Option<Jwt.Token>, req: Option<CreateRequest>,
                          profile: Upstream<Profile>, created: Upstream<Json>): (o: Outcome)
    ensures BearerFromCookie(env, now, cookie).None? ==> o == Outcome(Fail(400, "create_failed"), [])
    ensures BearerFromCookie(env, now, cookie).Some? ==>
              var token := BearerFromCookie(env, now, cookie).value;
              && 1 <= |o.calls| <= 2
              && o.calls[0] == ApiGet(Url(ApiBase, "me", []), Bearer(token))
              && (|o.calls| == 2 <==> profile.Ok? && req.Some?)
              && (profile.Ok? && req.Some? ==>
                    o.calls[1] == ApiPost(Url(ApiBase, "users/" + profile.data.id + "/playlists", []),
                                          PlaylistBody(req.value.name, req.value.description,
                                                       Truthy(req.value.isPublic)),
                                          Bearer(token)))
    ensures o.response.status == 201 <==>
              BearerFromCookie(env, now, cookie).Some? && profile.Ok? && req.Some? && created.Ok?
    ensures o.response.status == 201 ==> o.response == Response(201, Relay(created.data), None, None)
    ensures o.response.status != 201 ==> o.response == Fail(400, "create_failed")
  {
    match BearerFromCookie(env, now, cookie)
    case None => Outcome(Fail(400, "create_failed"), [])
    case Some(token) =>
      var lookup := ApiGet(Url(ApiBase, "me", []), Bearer(token));
      match profile
      case Err => Outcome(Fail(400, "create_failed"), [lookup])
      case Ok(me) =>
        match req
        case None => Outcome(Fail(400, "create_failed"), [lookup])
        case Some(body) =>
          var sent := PlaylistBody(body.name, body.description, Truthy(body.isPublic));
          var create := ApiPost(Url(ApiBase, "users/" + me.id + "/playlists", []), sent, Bearer(token));
          match created
          case Err => Outcome(Fail(400, "create_failed"), [lookup, create])
          case Ok(data) => Outcome(Response(201, Relay(data), None, None), [lookup, create])
  }

  /** The two calls of POST `/playlists` are `getUserProfile` followed by
      `createPlaylist` with `public` set to the request's `isPublic`. */
  lemma CreateAgreesWithService(env: Env, now: int, cookie: Option<Jwt.Token>, name: string,
                                description: Option<string>, isPublic: JsonValue,
                                me: Profile, created: Upstream<Json>, mine: Upstream<Json>)
    requires BearerFromCookie(env, now, cookie).Some?
    ensures var token := BearerFromCookie(env, now, cookie).value;
            var req := Some(CreateRequest(Some(name), description, isPublic));
            CreatePlaylist(env, now, cookie, req, Ok(me), created).calls
              == [SpotifyService.GetUserProfile(token, mine).request,
                  SpotifyService.CreatePlaylist(token, me.id,
                    SpotifyService.PlaylistData(name, description, isPublic), created).request]
  {
  }

  /** A session from the callback, used while it lives, makes every data route
      call the provider with the access token the provider issued at login. */
  lemma {:induction false} SessionGivesBearer(env: Env, signedAt: int, code: string, tokens: TokenResponse, now: int,
                                              reply: Upstream<Json>)
    requires code != ""
    requires now < signedAt + Lifetime(tokens.expires_in)
    ensures var c := AuthRoutes.Callback(env, signedAt, Some(code), Ok(tokens)).response.cookie.value.value;
            && BearerFromCookie(env, now, Some(c)) == Some(tokens.access_token)
            && Me(env, now, Some(c), reply).calls == [ApiGet(Url(ApiBase, "me", []), Bearer(tokens.access_token))]
  {
    var c := AuthRoutes.Callback(env, signedAt, Some(code), Ok(tokens)).response.cookie.value;
    assert Jwt.Check(c.value, env.jwtSecret, now) == Valid(Payload(tokens.access_token, tokens.refresh_token));
  }
}

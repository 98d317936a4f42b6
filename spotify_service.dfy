/** `SpotifyService`: one method per provider resource.  Each builds a single
    request with the Bearer header and hands the provider's reply back
    unchanged; optional parameters fall back to fixed defaults only when they
    are not given at all. */
module SpotifyService {
  import opened Wrappers
  import opened Http

  const ApiBase := "https://api.spotify.com/v1"

  const DefaultLimit := 20
  const DefaultOffset := 0
  const DefaultTimeRange := "short_term"
  const DefaultIncludeGroups := "album,single"

  datatype TopArtistsParams = TopArtistsParams(limit: Option<int>, offset: Option<int>, timeRange: Option<string>)
  datatype AlbumsParams = AlbumsParams(limit: Option<int>, offset: Option<int>, includeGroups: Option<string>)
  datatype PageParams = PageParams(limit: Option<int>, offset: Option<int>)

  /** The argument of `createPlaylist`: `public` is whatever the caller put
      there, and is coerced with `Boolean(...)`. */
  datatype PlaylistData = PlaylistData(name: string, description: Option<string>, public: JsonValue)

  /** `getUserProfile(accessToken)`. */
  function GetUserProfile(accessToken: string, reply: Upstream<Json>): (c: Call<Json>)
    ensures c.request == ApiGet(Url(ApiBase, "me", []), Bearer(accessToken))
    ensures c.result == reply
  {
    Call(ApiGet(Url(ApiBase, "me", []), Bearer(accessToken)), reply)
  }

  /** `getTopArtists(accessToken, params)`: query `limit`, `offset`,
      `time_range`, in that order. */
  function GetTopArtists(accessToken: string, params: TopArtistsParams, reply: Upstream<Json>): (c: Call<Json>)
    ensures c.request.ApiGet? && c.request.auth == Bearer(accessToken)
    ensures c.request.url.base == ApiBase && c.request.url.path == "me/top/artists"
    ensures Keys(c.request.url.query) == [Limit, Offset, TimeRange]
    ensures c.request.url.query[0].value == Number(if params.limit.Some? then params.limit.value else 20)
    ensures c.request.url.query[1].value == Number(if params.offset.Some? then params.offset.value else 0)
    ensures c.request.url.query[2].value == Text(if params.timeRange.Some? then params.timeRange.value else "short_term")
    ensures c.result == reply
  {
    var limit := params.limit.GetOr(DefaultLimit);
    var offset := params.offset.GetOr(DefaultOffset);
    var timeRange := params.timeRange.GetOr(DefaultTimeRange);
    var q := [Param(Limit, Number(limit)), Param(Offset, Number(offset)), Param(TimeRange, Text(timeRange))];
    Call(ApiGet(Url(ApiBase, "me/top/artists", q), Bearer(accessToken)), reply)
  }

  /** `getArtist(accessToken, artistId)`. */
  function GetArtist(accessToken: string, artistId: string, reply: Upstream<Json>): (c: Call<Json>)
    ensures c.request == ApiGet(Url(ApiBase, "artists/" + artistId, []), Bearer(accessToken))
    ensures c.result == reply
  {
    Call(ApiGet(Url(ApiBase, "artists/" + artistId, []), Bearer(accessToken)), reply)
  }

  /** `getArtistAlbums(accessToken, artistId, params)`: path
      `artists/{artistId}/albums`, query `limit`, `offset`, `include_groups`. */
  function GetArtistAlbums(accessToken: string, artistId: string, params: AlbumsParams, reply: Upstream<Json>): (c: Call<Json>)
    ensures c.request.ApiGet? && c.request.auth == Bearer(accessToken)
    ensures c.request.url.base == ApiBase && c.request.url.path == "artists/" + artistId + "/albums"
    ensures Keys(c.request.url.query) == [Limit, Offset, IncludeGroups]
    ensures c.request.url.query[0].value == Number(if params.limit.Some? then params.limit.value else 20)
    ensures c.request.url.query[1].value == Number(if params.offset.Some? then params.offset.value else 0)
    ensures c.request.url.query[2].value
         == Text(if params.includeGroups.Some? then params.includeGroups.value else "album,single")
    ensures c.result == reply
  {
    var limit := params.limit.GetOr(DefaultLimit);
    var offset := params.offset.GetOr(DefaultOffset);
    var groups := params.includeGroups.GetOr(DefaultIncludeGroups);
    var q := [Param(Limit, Number(limit)), Param(Offset, Number(offset)), Param(IncludeGroups, Text(groups))];
    Call(ApiGet(Url(ApiBase, "artists/" + artistId + "/albums", q), Bearer(accessToken)), reply)
  }

  /** `getUserPlaylists(accessToken, params)`: path `me/playlists`, query
      `limit`, `offset`. */
  function GetUserPlaylists(accessToken: string, params: PageParams, reply: Upstream<Json>): (c: Call<Json>)
    ensures c.request.ApiGet? && c.request.auth == Bearer(accessToken)
    ensures c.request.url.base == ApiBase && c.request.url.path == "me/playlists"
    ensures Keys(c.request.url.query) == [Limit, Offset]
    ensures c.request.url.query[0].value == Number(if params.limit.Some? then params.limit.value else 20)
    ensures c.request.url.query[1].value == Number(if params.offset.Some? then params.offset.value else 0)
    ensures c.result == reply
  {
    var limit := params.limit.GetOr(DefaultLimit);
    var offset := params.offset.GetOr(DefaultOffset);
    var q := [Param(Limit, Number(limit)), Param(Offset, Number(offset))];
    Call(ApiGet(Url(ApiBase, "me/playlists", q), Bearer(accessToken)), reply)
  }

  /** `createPlaylist(accessToken, userId, data)`: a POST to
      `users/{userId}/playlists` whose `public` is true exactly for a truthy
      input (so an absent one gives false). */
  function CreatePlaylist(accessToken: string, userId: string, data: PlaylistData, reply: Upstream<Json>): (c: Call<Json>)
    ensures c.request.ApiPost? && c.request.auth == Bearer(accessToken)
    ensures c.request.url == Url(ApiBase, "users/" + userId + "/playlists", [])
    ensures c.request.body.name == Some(data.name) && c.request.body.description == data.description
    ensures c.request.body.isPublic <==> Truthy(data.public)
    ensures data.public == Missing ==> !c.request.body.isPublic
    ensures c.result == reply
  {
    var body := PlaylistBody(Some(data.name), data.description, Truthy(data.public));
    Call(ApiPost(Url(ApiBase, "users/" + userId + "/playlists", []), body, Bearer(accessToken)), reply)
  }

  /** A parameter given explicitly reaches the query unchanged, and leaving
      out the whole parameter object is the same as leaving out every field. */
  lemma {:induction false} ExplicitParametersPassThrough(token: string, l: int, o: int, tr: string, reply: Upstream<Json>)
    ensures GetTopArtists(token, TopArtistsParams(Some(l), Some(o), Some(tr)), reply).request.url.query
         == [Param(Limit, Number(l)), Param(Offset, Number(o)), Param(TimeRange, Text(tr))]
    ensures GetTopArtists(token, TopArtistsParams(None, None, None), reply).request.url.query
         == [Param(Limit, Number(20)), Param(Offset, Number(0)), Param(TimeRange, Text("short_term"))]
  {
  }

  /** Every service call carries the caller's token as its Bearer header. */
  lemma EveryCallIsBearer(token: string, id: string, t: TopArtistsParams, a: AlbumsParams, p: PageParams,
                          data: PlaylistData, reply: Upstream<Json>)
    ensures GetUserProfile(token, reply).request.Auth() == Bearer(token)
    ensures GetTopArtists(token, t, reply).request.Auth() == Bearer(token)
    ensures GetArtist(token, id, reply).request.Auth() == Bearer(token)
    ensures GetArtistAlbums(token, id, a, reply).request.Auth() == Bearer(token)
    ensures GetUserPlaylists(token, p, reply).request.Auth() == Bearer(token)
    ensures CreatePlaylist(token, id, data, reply).request.Auth() == Bearer(token)
  {
  }
}

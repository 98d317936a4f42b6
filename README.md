# Spotify relay: a Dafny model of its session handling and page state

The system is a small OAuth relay in front of the Spotify Web API plus a web
front end. The API server sends the browser to Spotify's authorization page
and trades the returned code for provider tokens. It wraps those tokens in a
signed credential. That credential lives in an httpOnly cookie and lasts 90%
of the provider's lifetime. The server renews it on request and forwards data
calls with the provider's access token as a Bearer header. The front end keeps
a modal record, a sidebar with four links, and two "load more" lists.

This project models those parts and proves their properties:

- **API routes** (`AuthRoutes`, `SpotifyRoutes`). Each handler is a total
  function. Its inputs are the request, the configuration (`Config.Env`), the
  clock, and the reply the provider gave to the call the handler made. Its
  result is an `Outcome`: the response (status, JSON body, cookie operation,
  redirect) and the list of upstream calls made, in order. `/login` makes no
  call, so its handler returns a bare `Response`.
- **Services** (`AuthService`, `SpotifyService`). These are field-less
  classes in the source, and here they are functions. The two token grants
  and the six provider calls each build one request and hand the provider's
  reply back unchanged. `createJWTToken`, `verifyJWTToken`,
  `extractAccessToken` and `generateAuthorizationUrl` make no call: they
  compute a token, a verification result, an access token or a URL.
- **Credential codec** (`Session`, `Jwt`). `jsonwebtoken` is modelled
  abstractly: a signed token remembers its payload, its expiry and the key it
  was signed with. Verification accepts it only with the same key before its
  expiry. Every other case is one `Invalid`. The library throws different
  errors for an expired token and a bad one, but every route catches them
  with a bare `catch` and never tells them apart.
- **Front end** (`UseModal`, `Sidebar`, `TopArtistsPage`, `PlaylistsPage`).
  Each is a class over the component's state variables. Its methods are
  proved against pure transition functions, and lemmas about those functions
  (including runs of many steps) carry the properties.

The model performs no I/O. The clock (`now`, whole seconds), the provider's
replies, `fetch` answers and the router's current path are all parameters.

Observed behaviour the model keeps as written:

- `/refresh` checks the credential with the same verification as every data
  route, so an expired credential can never be refreshed. This holds even
  though the cookie outlives it (`AuthRoutes.ExpiredSessionCannotRefresh`).
- `/refresh` always keeps the previous refresh token, whatever the provider
  returns.
- The `/top-artists` route forwards only `limit` and `offset`. It does not
  forward `time_range`, although the service method and the route's tests
  use it (`SpotifyRoutes.GetRoutesAgreeWithService`).
- A missing cookie on a data route gives 401 `unauthorized`. The
  `no_session` error thrown at spotify.ts:11 is caught at spotify.ts:23 like
  any other failure.
- A failed code exchange rejects the async `/callback` handler, which has no
  `catch` (auth.ts:39-41). The framework then answers a bare 500.
- The route file serves no `/artists` routes.
- After a successful playlist creation, the playlists page's `offset` is one
  less than the length of its list (`PlaylistsPage.CreateShiftsOffset`).

## Model

| member | source | states |
|---|---|---|
| Session.Lifetime | apps/api/src/services/AuthService.ts:51 | the credential lifetime is floor(0.9 × expires_in): 10·r ≤ 9·e < 10·r + 10; it lies between 0 and expires_in for non-negative input |
| Session.CookieOutlivesCredential | apps/api/src/routes/auth.ts:44-51 | the cookie's maxAge (expires_in·1000 ms) is never shorter than the signed lifetime in ms, and is strictly longer for every lifetime of at least 1 s |
| Jwt.Sign | apps/api/src/services/AuthService.ts:53 | a signed token carries the payload and key given and lives exactly expiresIn seconds |
| Jwt.SignThenCheck | apps/api/src/services/AuthService.ts:53-57 | verifying a signed credential with its key gives back its payload exactly before its expiry, and Invalid from then on |
| Jwt.OtherKeyFails | apps/api/src/services/AuthService.ts:56-58 | a token signed with another secret never verifies |
| Jwt.NinetyPercentMargin | apps/api/src/services/AuthService.ts:51-53 | a 90%-lifetime credential is valid exactly while 10·(elapsed+1) ≤ 9·expires_in, and is invalid once the provider's own lifetime has elapsed |
| Jwt.FailuresIndistinguishable | apps/api/src/routes/auth.ts:76-78 | a forged token and an expired one give the same failure; `jsonwebtoken` throws different errors for them, but this bare `catch` (like those at spotify.ts:23, 37, 51 and 69) never looks at which |
| Config.CookieName | apps/api/src/routes/auth.ts:9 | the cookie name is COOKIE_NAME when set, else `sp_session` |
| Config.FrontendOrigin | apps/api/src/routes/auth.ts:53 | the redirect target is CORS_ORIGIN when set, else `http://127.0.0.1:3000` |
| Responses.Present | apps/api/src/routes/auth.ts:59 | `!cookie` is false: a present cookie has a value, the empty value is not present, and every signed token is (the same test is at spotify.ts:11) |
| Http.Truthy | apps/api/src/services/SpotifyService.ts:94 | `Boolean(v)`: undefined and null are false, a boolean is itself, a string is true exactly when non-empty, arrays and objects are true |
| Config.ClientCredentials | apps/api/src/routes/auth.ts:37 | the Basic credential text is client_id, a colon, then client_secret |
| Strings.SplitJoin | apps/api/src/routes/auth.ts:14-18 | splitting a separator-joined non-empty list whose elements lack the separator gives the list back |
| Strings.TrimEmptyIffBlank | apps/web/app/playlists/page.tsx:68 | `trim()` gives the empty string exactly for strings made only of white space |
| AuthService.ExchangeCodeForToken | apps/api/src/services/AuthService.ts:22-43 | posts `grant_type=authorization_code`, `code`, `redirect_uri` (in that order) to the token endpoint, form-encoded, with Basic client_id:client_secret; returns the reply unchanged |
| AuthService.RefreshAccessToken | apps/api/src/services/AuthService.ts:65-85 | posts `grant_type=refresh_token`, `refresh_token` with the same client authentication; returns the reply unchanged |
| AuthService.CreateJwtToken | apps/api/src/services/AuthService.ts:45-54 | the credential keeps exactly the input's access and refresh tokens, and its lifetime is floor(0.9 × expires_in) |
| AuthService.SignedToken | apps/api/src/services/AuthService.ts:53 | the token createJWTToken returns at time now: signed with the app secret, issued at now, carrying both provider tokens, expiring at now + floor(0.9 × expires_in) |
| AuthService.VerifyJwtToken | apps/api/src/services/AuthService.ts:56-58 | verification succeeds exactly for a token signed with the app secret whose expiry is still ahead, and then gives that token's payload |
| AuthService.ExtractAccessToken | apps/api/src/services/AuthService.ts:56-63 | gives the verified payload's access_token, and fails exactly when verification fails |
| AuthService.ExtractAfterCreate | apps/api/src/services/AuthService.ts:45-63 | a token from createJWTToken yields the provider's access token exactly during its 90% lifetime |
| AuthService.GenerateAuthorizationUrl | apps/api/src/services/AuthService.ts:87-105 | the authorize URL has response_type=code, client_id, scope, redirect_uri in this order |
| AuthService.ScopesRoundTrip | apps/api/src/services/AuthService.ts:88-100 | the space-joined scope value splits back into the six scopes in their fixed order |
| AuthRoutes.Login | apps/api/src/routes/auth.ts:13-26 | /login is a 302 to the authorize endpoint with the four parameters in order, and sets no cookie |
| AuthRoutes.LoginAgreesWithService | apps/api/src/routes/auth.ts:14-25 | the route's scope list and redirect equal generateAuthorizationUrl's |
| AuthRoutes.LoginScopesRoundTrip | apps/api/src/routes/auth.ts:14-18 | the /login scope value splits back into the six scopes |
| AuthRoutes.GrantsAgreeWithService | apps/api/src/routes/auth.ts:32-41 | the callback's and refresh's token requests are exactly the service's two grant requests |
| AuthRoutes.CodeParam | apps/api/src/routes/auth.ts:29 | `String(req.query.code ?? '')`: empty exactly when the code is absent or empty, and otherwise the code itself |
| AuthRoutes.IssueCookie | apps/api/src/routes/auth.ts:43-52 | the issued cookie is the session cookie (httpOnly, SameSite=Lax, path `/`, maxAge expires_in·1000), and holds a token that yields the payload exactly for its 90% lifetime; refresh issues it the same way (auth.ts:66-74) |
| AuthRoutes.SignedWindow | apps/api/src/routes/auth.ts:44 | a credential signed at now verifies with its payload at every instant before now + its lifetime, and at no instant after |
| AuthRoutes.Callback | apps/api/src/routes/auth.ts:28-54 | an absent or empty code gives 400 missing_code with no cookie and no upstream call; otherwise exactly one code grant; a refused grant gives 500 with no cookie and no redirect; an answered one sets the session cookie over {access_token, refresh_token} and redirects to the front end |
| AuthRoutes.CallbackAgreesWithService | apps/api/src/routes/auth.ts:43-44 | the callback signs what createJWTToken would sign |
| AuthRoutes.Refresh | apps/api/src/routes/auth.ts:56-79 | no or empty cookie gives 401 no_session with no call; a failed verification or refused grant gives 401 refresh_failed; success re-signs the new access token with the previous refresh token and answers {ok:true} |
| AuthRoutes.Logout | apps/api/src/routes/auth.ts:81-89 | always 200 {ok:true, message:'Logged out successfully'}, clears the cookie with its attributes, makes no call |
| AuthRoutes.LogoutIgnoresSession | apps/api/src/routes/auth.ts:81 | logout's outcome does not depend on the session presented |
| AuthRoutes.RefreshKeepsRefreshToken | apps/api/src/routes/auth.ts:60-67 | refreshing a live callback session sends the login refresh token and keeps it in the new credential, whatever the refresh reply |
| AuthRoutes.ExpiredSessionCannotRefresh | apps/api/src/routes/auth.ts:58-60 | once the 90% lifetime is over, the cookie is still alive, but /refresh fails with refresh_failed and does not contact the provider |
| SpotifyRoutes.BearerFromCookie | apps/api/src/routes/spotify.ts:10-14 | fails when the cookie is absent, empty or does not verify; otherwise gives exactly the payload's access_token |
| SpotifyRoutes.BearerAgreesWithService | apps/api/src/routes/spotify.ts:10-14 | for a present cookie this equals extractAccessToken |
| SpotifyRoutes.RelayGet | apps/api/src/routes/spotify.ts:16-26 | without a bearer: 401 unauthorized, no call; with one: one GET with that Bearer header, relayed with 200 on success, 401 unauthorized on any failure |
| SpotifyRoutes.NumberParam | apps/api/src/routes/spotify.ts:31-32 | `Number(req.query.x ?? d)`: the given value when there is one, else the default (the same at spotify.ts:45-46) |
| SpotifyRoutes.Me | apps/api/src/routes/spotify.ts:16-26 | GET /me is exactly 200 with the upstream body, no cookie and no redirect when the session verifies and the provider answers; every other case is 401 unauthorized |
| SpotifyRoutes.TopArtists | apps/api/src/routes/spotify.ts:28-40 | GET `me/top/artists` with limit (default 20) and offset (default 0), with the session's Bearer; exactly 200 with the upstream body on success, or 401 unauthorized |
| SpotifyRoutes.Playlists | apps/api/src/routes/spotify.ts:42-54 | GET `me/playlists` with limit (default 20) and offset (default 0), with the session's Bearer; exactly 200 with the upstream body on success, or 401 unauthorized |
| SpotifyRoutes.GetRoutesAgreeWithService | apps/api/src/routes/spotify.ts:28-40 | the GET routes send the service's requests, except that /top-artists drops time_range |
| SpotifyRoutes.CreatePlaylist | apps/api/src/routes/spotify.ts:56-72 | the profile lookup comes first; the create call to `users/{id}/playlists` with {name, description, public: Boolean(isPublic)} is made exactly when the lookup succeeded and the request has a body (fields the client left out go as undefined); 201 with the upstream body exactly when both calls succeed, else 400 create_failed (a missing session or a missing body included) |
| SpotifyRoutes.CreateAgreesWithService | apps/api/src/routes/spotify.ts:59-67 | for a request with a name, the two calls are getUserProfile followed by the service's createPlaylist |
| SpotifyRoutes.SessionGivesBearer | apps/api/src/routes/spotify.ts:18-21 | a live callback session makes /me call the provider with the access token obtained at login |
| SpotifyService.GetUserProfile | apps/api/src/services/SpotifyService.ts:6-11 | GET `me` with the Bearer token; reply unchanged |
| SpotifyService.GetTopArtists | apps/api/src/services/SpotifyService.ts:13-30 | query limit, offset, time_range in that order, defaulting to 20, 0, short_term, given values passed through |
| SpotifyService.GetArtist | apps/api/src/services/SpotifyService.ts:32-40 | GET `artists/{artistId}` with the Bearer token |
| SpotifyService.GetArtistAlbums | apps/api/src/services/SpotifyService.ts:42-60 | path `artists/{id}/albums`, query limit, offset, include_groups defaulting to 20, 0, `album,single` |
| SpotifyService.GetUserPlaylists | apps/api/src/services/SpotifyService.ts:62-78 | path `me/playlists`, query limit, offset defaulting to 20, 0 |
| SpotifyService.CreatePlaylist | apps/api/src/services/SpotifyService.ts:80-101 | POST to `users/{userId}/playlists`; public is true exactly for a truthy input, false when absent |
| SpotifyService.ExplicitParametersPassThrough | apps/api/src/services/SpotifyService.ts:21 | explicit parameters reach the query unchanged; an omitted parameter object means all defaults |
| SpotifyService.EveryCallIsBearer | apps/api/src/services/SpotifyService.ts:8-97 | all six methods send Authorization: Bearer with the given token |
| UseModal.Closed | apps/web/hooks/useModal.ts:46-51 | closing clears isOpen and keeps title, message and type |
| UseModal.CloseIdempotent | apps/web/hooks/useModal.ts:47-50 | closing twice is closing once |
| UseModal.Modal.constructor | apps/web/hooks/useModal.ts:12-17 | the initial state is closed, empty title and message, type info |
| UseModal.Modal.ShowSuccess | apps/web/hooks/useModal.ts:19-26 | the new state is open, the title and message verbatim, type success, whatever came before |
| UseModal.Modal.ShowError | apps/web/hooks/useModal.ts:28-35 | the same with type error |
| UseModal.Modal.ShowInfo | apps/web/hooks/useModal.ts:37-44 | the same with type info |
| UseModal.Modal.CloseModal | apps/web/hooks/useModal.ts:46-51 | the new state is the old one with isOpen false |
| UseModal.OnlyClosesAfter | apps/web/hooks/useModal.ts:46-51 | any number of closes after a state equals one close, or nothing if there are none |
| UseModal.LastShowWins | apps/web/hooks/useModal.ts:19-51 | after any history, the state is the last show's title, message and type, open unless a close followed |
| UseModal.ShowForgetsHistory | apps/web/hooks/useModal.ts:19-44 | a show overrides the previous state: histories that agree from a show on end alike |
| Sidebar.IsActive | apps/web/components/Sidebar.tsx:55 | an item is active when the pathname is its path; when a table item is active, no other table item is |
| Sidebar.Links | apps/web/components/Sidebar.tsx:54-66 | one link per table entry, in order, each with its name and path, active exactly when the pathname equals the item's path |
| Sidebar.NavPathsDistinct | apps/web/components/Sidebar.tsx:18-23 | exactly four items with pairwise-distinct paths |
| Sidebar.ActiveLinks | apps/web/components/Sidebar.tsx:55 | an item is active exactly when the pathname is its path; no two are active; none for an unknown path |
| Sidebar.MenuDoesNotChangeLinks | apps/web/components/Sidebar.tsx:55 | the links do not depend on isOpen |
| Sidebar.SidebarState.View | apps/web/components/Sidebar.tsx:41 | the overlay is rendered exactly when isOpen |
| Sidebar.SidebarState.constructor | apps/web/components/Sidebar.tsx:16 | the menu starts closed |
| Sidebar.SidebarState.ToggleMenu | apps/web/components/Sidebar.tsx:33 | the hamburger flips isOpen and leaves the links unchanged |
| Sidebar.SidebarState.ClickOverlay | apps/web/components/Sidebar.tsx:44 | an overlay click closes the menu |
| Sidebar.SidebarState.ClickLink | apps/web/components/Sidebar.tsx:25-27 | a link click closes the menu |
| Sidebar.ToggleTwice | apps/web/components/Sidebar.tsx:33 | two toggles restore the original state |
| Paging.PageRequest | apps/web/app/top-artists/page.tsx:30 | a page request asks for limit=20 at the given offset |
| Paging.Appended | apps/web/app/top-artists/page.tsx:34-37 | the items an OK answer appends: all of its items, or none |
| TopArtistsPage.Finish | apps/web/app/top-artists/page.tsx:31-45 | an answer clears loading, appends exactly the page's items to the list, advances offset by their number, and never turns hasMore back on; an OK page with a truthy next and items that are not empty keeps hasMore as it was |
| TopArtistsPage.FinishEffect | apps/web/app/top-artists/page.tsx:29-45 | an answer appends the page's items in order and adds their count to offset; hasMore can only fall, becoming false for a falsy next or empty items; an OK page with a truthy next and non-empty or missing items keeps it, as does a non-OK or failed answer; loading is false after |
| TopArtistsPage.TopArtists.constructor | apps/web/app/top-artists/page.tsx:19-22 | starts with no items, offset 0, hasMore, not loading |
| TopArtistsPage.TopArtists.StartLoad | apps/web/app/top-artists/page.tsx:25-30 | while loading or without more: no request, no change; otherwise loading is set and limit=20 at the current offset is requested |
| TopArtistsPage.TopArtists.FinishLoad | apps/web/app/top-artists/page.tsx:31-45 | applies the answer as the specification function says and keeps offset == items.length |
| TopArtistsPage.LoadsKeepOffset | apps/web/app/top-artists/page.tsx:19-45 | over any run of loads offset == items.length holds, items only grow at the end, and once hasMore is false nothing changes |
| PlaylistsPage.Finish | apps/web/app/playlists/page.tsx:43-57 | an answer clears loading, appends exactly the page's items, advances offset by their number, and leaves the form untouched |
| PlaylistsPage.FinishEffect | apps/web/app/playlists/page.tsx:43-57 | an answer appends in order and adds the count to offset; on an OK page with items, hasMore = next !== null && items non-empty; on one with missing items, hasMore = next !== null; failures keep hasMore; the form is untouched; loading is false after |
| PlaylistsPage.Create | apps/web/app/playlists/page.tsx:66-95 | a creation never touches offset, hasMore, loading or the visibility choice; when it changes anything, the server's playlist was prepended and the form was reset and hidden |
| PlaylistsPage.CreateEffect | apps/web/app/playlists/page.tsx:66-95 | a blank name changes nothing; a created playlist goes first, name and description are cleared, the form closes, offset and the visibility choice are kept; a failure changes nothing |
| PlaylistsPage.CreateShiftsOffset | apps/web/app/playlists/page.tsx:84 | after a creation the list is one longer than offset |
| PlaylistsPage.Playlists.constructor | apps/web/app/playlists/page.tsx:24-31 | the initial page state, with isPublic true |
| PlaylistsPage.Playlists.StartLoad | apps/web/app/playlists/page.tsx:34-42 | the same guard and request as the top-artists page, on `api/playlists` |
| PlaylistsPage.Playlists.FinishLoad | apps/web/app/playlists/page.tsx:43-57 | applies the answer as the specification function says |
| PlaylistsPage.Playlists.ToggleForm | apps/web/app/playlists/page.tsx:101 | flips showCreateForm only |
| PlaylistsPage.Playlists.EditForm | apps/web/app/playlists/page.tsx:121-155 | the inputs set name, description and the public choice only |
| PlaylistsPage.Playlists.CreatePlaylist | apps/web/app/playlists/page.tsx:66-95 | a blank name sends nothing; otherwise it posts {name, description, isPublic} and shows the success or failure alert; the new state is the specification function's |
| PlaylistsPage.LoadsKeepOffset | apps/web/app/playlists/page.tsx:34-57 | over any run of loads offset == playlists.length, the list only grows at the end, the form is untouched, and nothing changes once hasMore is false |

## Left out

- AuthService.VerifyJwtToken / AuthService.ExtractAccessToken: the source calls `jwt.verify` without a `catch`, so the library's separate expired and malformed errors reach the caller. The model merges them into one `Invalid` (or `None`). Nothing in the source calls these two methods.
- JWT internals (HMAC signature, base64url and JSON layers): a token is an abstract value that records its key and expiry. Token text that was not signed is `Garbage`; the empty cookie is `Garbage("")`.
- Base64 encoding of the Basic credentials: the header holds the `client_id:client_secret` text.
- URL and form percent-encoding by `URLSearchParams`: URLs are a base, a path and an ordered parameter list.
- Session.Lifetime: `Math.floor(expires_in * 0.9)` is a float product in the source. It is modelled as exact integer arithmetic, which gives the same result for every integer lifetime the provider can report.
- `Number(...)` on query text: a given `limit`/`offset` is already an integer. Non-numeric text, which becomes `NaN`, is not modelled.
- SpotifyRoutes.CreatePlaylist: a request body field of the wrong JSON type (a numeric `name`, say) is not modelled. A missing body and missing fields are.
- Missing fields in provider replies are not modelled. These include a reply without `refresh_token`, without `expires_in` (which makes `jwt.sign` throw), and a profile without `id`. Provider resource bodies are opaque text relayed unchanged.
- Environment variables asserted present with `!` are taken as set strings. `secure: false` is fixed, as in the source.
- The clock is a parameter in whole seconds. `jsonwebtoken`'s `iat` rounding, clock tolerance and other options are not modelled.
- Express plumbing: routing, cookie-parser, CORS and startup. The text body of a redirect is not modelled, and neither is the content of the framework's 500 page.
- Network I/O: `axios` and `fetch` calls are represented by their replies, passed as parameters. A thrown `fetch`, a non-OK response and an unreadable body are distinguished where the pages treat them differently.
- Concurrency: overlapping loads, stale React closures (`createPlaylist` prepends to the `playlists` it captured), React's batching of updates, and races between `/refresh` and data calls. Each page load is two sequential steps split at its `await`. Each creation is one step.
- Navigation by a sidebar link (Next.js changes the path) belongs to the router. The model's link click only closes the menu.
- The pages' `useEffect` mount-time load is the first `StartLoad` from the initial state. `console.error`, alerts as UI, and all JSX, CSS and icons are left out. The alert text is returned as a value.
- The `/artists/:id` and `/artists/:id/albums` routes, and `time_range` on `/top-artists`, are exercised by the route tests but are not in the route file. They exist only in `SpotifyService`.
- `generateAuthorizationUrl` and the login route return a URL string. The model returns the structured URL.

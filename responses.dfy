/** What a route handler writes back: status, JSON body, the session cookie,
    a redirect; and, beside it, the upstream calls the handler made. */
module Responses {
  import opened Wrappers
  import opened Http
  import Jwt

  datatype SameSite = Lax | Strict | NoneSite

  datatype CookieAttrs = CookieAttrs(httpOnly: bool, secure: bool, sameSite: SameSite, path: string)

  /** The attributes the session cookie is written and cleared with. */
  const SessionCookieAttrs := CookieAttrs(true, false, Lax, "/")

  datatype CookieOp =
    | SetCookie(name: string, value: Jwt.Token, attrs: CookieAttrs, maxAge: int)
    | ClearCookie(name: string, attrs: CookieAttrs)

  datatype Response = Response(status: int, body: Body, cookie: Option<CookieOp>, location: Option<Url>)

  /** A handler's whole effect: the response and the upstream calls made, in
      order. */
  datatype Outcome = Outcome(response: Response, calls: seq<Outbound>)

  /** A `res.status(s).json({error: tag})` response. */
  function Fail(status: int, tag: string): Response
  {
    Response(status, ErrorTag(tag), None, None)
  }

  /** The request carried a usable cookie value: `!cookie` is false.  An empty
      cookie value is a token text that no signature produced. */
  predicate Present(cookie: Option<Jwt.Token>)
    ensures Present(cookie) ==> cookie.Some?
    ensures cookie == Some(Jwt.Garbage("")) ==> !Present(cookie)
    ensures cookie.Some? && cookie.value.Signed? ==> Present(cookie)
  {
    cookie.Some? && cookie.value != Jwt.Garbage("")
  }
}

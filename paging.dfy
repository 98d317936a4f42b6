/** What the two "load more" pages have in common: the answer `fetch` gives
    them and the request they make. */
module Paging {
  import opened Wrappers
  import opened Http

  /** The `next` field of a provider page: `null`, absent, or a URL. */
  datatype NextLink = NextNull | NextAbsent | NextUrl(url: string)

  /** `!data.next` is false only for a non-empty URL. */
  predicate NextTruthy(n: NextLink)
  {
    n.NextUrl? && n.url != ""
  }

  /** A page of results; `items` is `None` when the field is missing or null. */
  datatype PageBody<T> = PageBody(items: Option<seq<T>>, next: NextLink)

  /** What `fetch` and `res.json()` produce: a thrown network error, a response
      that is not OK, an OK response with its body, or an OK response whose
      body cannot be read as JSON. */
  datatype Fetch<T> = NetworkError | NotOk | Page(body: PageBody<T>) | BadJson

  /** The page size both pages ask for. */
  const PageLimit := 20

  /** `${API}/api/<path>?limit=20&offset=<offset>`. */
  function PageRequest(api: string, path: string, offset: int): (u: Url)
    ensures u.base == api && u.path == path
    ensures u.query == [Param(Limit, Number(20)), Param(Offset, Number(offset))]
  {
    Url(api, path, [Param(Limit, Number(PageLimit)), Param(Offset, Number(offset))])
  }

  /** The items an OK page appends: all of them when there are some. */
  function Appended<T>(f: Fetch<T>): (xs: seq<T>)
    ensures f.Page? && f.body.items.Some? ==> xs == f.body.items.value
    ensures !(f.Page? && f.body.items.Some?) ==> xs == []
  {
    if f.Page? && f.body.items.Some? then f.body.items.value else []
  }
}

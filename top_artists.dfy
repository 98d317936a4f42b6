/** The top-artists page: a list that grows by one "load more" step at a time.
    A load is split at its `await`: `StartLoad` passes the guard, sets
    `loading` and issues the request; `FinishLoad` applies the answer and
    clears `loading`, as the `finally` block does. */
module TopArtistsPage {
  import opened Wrappers
  import opened Http
  import opened Paging

  datatype Artist = Artist(id: string, name: string)

  datatype PageState = PageState(items: seq<Artist>, offset: int, hasMore: bool, loading: bool)

  const Initial := PageState([], 0, true, false)

  /** `if (loading || !hasMore) return` lets the load through. */
  predicate CanLoad(s: PageState)
  {
    !s.loading && s.hasMore
  }

  /** The answer applied to the state.  A thrown `fetch` or `res.json()` and a
      non-OK response change nothing but `loading`.  An OK page appends its
      items when there are some; it ends the list when `next` is falsy or the
      items are empty; when the items are missing and `next` is truthy,
      `data.items.length` throws and `hasMore` is left as it was. */
  function Finish(s: PageState, f: Fetch<Artist>): (r: PageState)
    ensures !r.loading
    ensures r.items == s.items + Appended(f) && r.offset == s.offset + |Appended(f)|
    ensures r.hasMore ==> s.hasMore
    ensures f.Page? && NextTruthy(f.body.next) && f.body.items != Some([]) ==> r.hasMore == s.hasMore
  {
    match f
    case Page(body) =>
      var grown := if body.items.Some? && |body.items.value| > 0
                   then s.(items := s.items + body.items.value, offset := s.offset + |body.items.value|)
                   else s;
      var more := if !NextTruthy(body.next) then false
                  else if body.items.None? then s.hasMore
                  else if |body.items.value| == 0 then false
                  else s.hasMore;
      grown.(hasMore := more, loading := false)
    case _ => s.(loading := false)
  }

  /** One answered load, in its effect on items, offset and `hasMore`. */
  lemma FinishEffect(s: PageState, f: Fetch<Artist>)
    ensures var r := Finish(s, f);
            && !r.loading
            && r.items == s.items + Appended(f)
            && r.offset == s.offset + |Appended(f)|
            && (r.hasMore ==> s.hasMore)
            && (!f.Page? ==> r.hasMore == s.hasMore)
            && (f.Page? && (!NextTruthy(f.body.next) || f.body.items == Some([])) ==> !r.hasMore)
            && (f.Page? && NextTruthy(f.body.next) && f.body.items != Some([]) ==> r.hasMore == s.hasMore)
  {
  }

  /** The page's state as a class over its four React state variables. */
  class TopArtists {
    var items: seq<Artist>
    var offset: int
    var hasMore: bool
    var loading: bool

    function State(): PageState
      reads this
    {
      PageState(items, offset, hasMore, loading)
    }

    ghost predicate Valid()
      reads this
    {
      offset == |items|
    }

    constructor ()
      ensures State() == Initial && Valid()
    {
      items, offset, hasMore, loading := [], 0, true, false;
    }

    /** The start of `load`: nothing at all when the guard stops it; otherwise
        `loading` is set and the request for 20 items at the current offset is
        sent. */
    method StartLoad(api: string) returns (request: Option<Url>)
      requires Valid()
      modifies this
      ensures Valid()
      ensures !CanLoad(old(State())) ==> request.None? && State() == old(State())
      ensures CanLoad(old(State())) ==>
                && request == Some(PageRequest(api, "api/top-artists", old(offset)))
                && State() == old(State()).(loading := true)
    {
      if loading || !hasMore {
        return None;
      }
      loading := true;
      request := Some(PageRequest(api, "api/top-artists", offset));
    }

    /** The rest of `load`, once the answer is in. */
    method FinishLoad(f: Fetch<Artist>)
      requires Valid() && loading
      modifies this
      ensures Valid()
      ensures State() == Finish(old(State()), f)
    {
      match f {
        case Page(body) =>
          if body.items.Some? && |body.items.value| > 0 {
            items := items + body.items.value;
            offset := offset + |body.items.value|;
          }
          if !NextTruthy(body.next) {
            hasMore := false;
          } else if body.items.Some? && |body.items.value| == 0 {
            hasMore := false;
          }
        case _ =>
      }
      loading := false;
    }
  }

  /** One complete load (start and answer) as a function of the state. */
  function Load(s: PageState, f: Fetch<Artist>): PageState
  {
    if CanLoad(s) then Finish(s.(loading := true), f) else s
  }

  /** Any run of complete loads from the page's first state keeps the offset
      equal to the number of items, only ever appends, and never brings
      `hasMore` back once it is false. */
  lemma {:induction false} LoadsKeepOffset(s: PageState, fs: seq<Fetch<Artist>>)
    requires s.offset == |s.items| && !s.loading
    ensures var r := Run(s, fs);
            && r.offset == |r.items| && !r.loading
            && s.items <= r.items
            && (!s.hasMore ==> r == s)
    decreases |fs|
  {
    if fs != [] {
      var next := Load(s, fs[0]);
      FinishEffect(s.(loading := true), fs[0]);
      LoadsKeepOffset(next, fs[1..]);
    }
  }

  function Run(s: PageState, fs: seq<Fetch<Artist>>): PageState
    decreases |fs|
  {
    if fs == [] then s else Run(Load(s, fs[0]), fs[1..])
  }
}

/** The playlists page: the same "load more" list as the top-artists page,
    with its own end-of-list rule, plus a form that creates a playlist and puts
    it at the head of the list. */
module PlaylistsPage {
  import opened Wrappers
  import opened Http
  import opened Paging
  import Strings

  datatype Playlist = Playlist(id: string, name: string)

  datatype PageState = PageState(
    playlists: seq<Playlist>, offset: int, hasMore: bool, loading: bool,
    showCreateForm: bool, newName: string, newDescription: string, isPublic: bool)

  const Initial := PageState([], 0, true, false, false, "", "", true)

  predicate CanLoad(s: PageState)
  {
    !s.loading && s.hasMore
  }

  /** The answer of a load applied to the state.  Errors and non-OK responses
      change nothing but `loading`.  An OK page appends its items when there
      are some and sets `hasMore` to `next !== null && items.length > 0`; when
      the items are missing and `next` is not null, evaluating that throws,
      the `catch` swallows it, and `hasMore` is left as it was. */
  function Finish(s: PageState, f: Fetch<Playlist>): (r: PageState)
    ensures !r.loading
    ensures r.playlists == s.playlists + Appended(f) && r.offset == s.offset + |Appended(f)|
    ensures (r.showCreateForm, r.newName, r.newDescription, r.isPublic)
         == (s.showCreateForm, s.newName, s.newDescription, s.isPublic)
  {
    match f
    case Page(body) =>
      var grown := if body.items.Some? && |body.items.value| > 0
                   then s.(playlists := s.playlists + body.items.value, offset := s.offset + |body.items.value|)
                   else s;
      var more := if body.next == NextNull then false
                  else if body.items.None? then s.hasMore
                  else |body.items.value| > 0;
      grown.(hasMore := more, loading := false)
    case _ => s.(loading := false)
  }

  lemma FinishEffect(s: PageState, f: Fetch<Playlist>)
    requires s.hasMore
    ensures var r := Finish(s, f);
            && !r.loading
            && r.playlists == s.playlists + Appended(f)
            && r.offset == s.offset + |Appended(f)|
            && (!f.Page? ==> r.hasMore)
            && (f.Page? && f.body.items.Some? ==>
                  (r.hasMore <==> f.body.next != NextNull && |f.body.items.value| > 0))
            && (f.Page? && f.body.items.None? ==> (r.hasMore <==> f.body.next != NextNull))
            && (r.showCreateForm, r.newName, r.newDescription, r.isPublic)
               == (s.showCreateForm, s.newName, s.newDescription, s.isPublic)
  {
  }

  /** The request body the form posts to `${API}/api/playlists`. */
  datatype NewPlaylist = NewPlaylist(name: string, description: string, isPublic: bool)

  const CreatedAlert := "Playlist criada com sucesso!"
  const FailedAlert := "Erro ao criar playlist"

  /** `!newPlaylistName.trim()`: the name is empty or white space only. */
  predicate BlankName(s: PageState)
  {
    Strings.Trim(s.newName) == ""
  }

  /** `createPlaylist` applied to the state, given the server's answer (`Err`
      for a non-OK response, a thrown `fetch` and an unreadable body alike). */
  function Create(s: PageState, reply: Upstream<Playlist>): (r: PageState)
    ensures (r.offset, r.hasMore, r.loading, r.isPublic) == (s.offset, s.hasMore, s.loading, s.isPublic)
    ensures r != s ==> reply.Ok? && r.playlists == [reply.data] + s.playlists
                       && r.newName == "" && r.newDescription == "" && !r.showCreateForm
  {
    if BlankName(s) then s
    else
      match reply
      case Ok(p) => s.(playlists := [p] + s.playlists, newName := "", newDescription := "", showCreateForm := false)
      case Err => s
  }

  /** A blank name does nothing; a created playlist goes first and the form is
      reset and hidden, the offset and the visibility choice untouched; a
      failure changes nothing. */
  lemma {:induction false} CreateEffect(s: PageState, reply: Upstream<Playlist>)
    ensures Strings.Blank(s.newName) ==> Create(s, reply) == s
    ensures !Strings.Blank(s.newName) && reply.Ok? ==>
              var r := Create(s, reply);
              && r.playlists == [reply.data] + s.playlists
              && r.newName == "" && r.newDescription == "" && !r.showCreateForm
              && r.offset == s.offset && r.hasMore == s.hasMore && r.loading == s.loading
              && r.isPublic == s.isPublic
    ensures reply.Err? ==> Create(s, reply) == s
  {
    Strings.TrimEmptyIffBlank(s.newName);
  }

  /** The list's one-to-one match between offset and length, kept by every
      load, is off by one after a successful creation. */
  lemma CreateShiftsOffset(s: PageState, p: Playlist)
    requires s.offset == |s.playlists| && !BlankName(s)
    ensures var r := Create(s, Ok(p)); r.offset == |r.playlists| - 1
  {
  }

  class Playlists {
    var playlists: seq<Playlist>
    var offset: int
    var loading: bool
    var hasMore: bool
    var showCreateForm: bool
    var newName: string
    var newDescription: string
    var isPublic: bool

    function State(): PageState
      reads this
    {
      PageState(playlists, offset, hasMore, loading, showCreateForm, newName, newDescription, isPublic)
    }

    constructor ()
      ensures State() == Initial
    {
      playlists, offset, loading, hasMore := [], 0, false, true;
      showCreateForm, newName, newDescription, isPublic := false, "", "", true;
    }

    /** The start of `load`: nothing when the guard stops it; otherwise the
        request for 20 playlists at the current offset, with `loading` set. */
    method StartLoad(api: string) returns (request: Option<Url>)
      modifies this
      ensures !CanLoad(old(State())) ==> request.None? && State() == old(State())
      ensures CanLoad(old(State())) ==>
                && request == Some(PageRequest(api, "api/playlists", old(offset)))
                && State() == old(State()).(loading := true)
    {
      if loading || !hasMore {
        return None;
      }
      loading := true;
      request := Some(PageRequest(api, "api/playlists", offset));
    }

    method FinishLoad(f: Fetch<Playlist>)
      requires loading
      modifies this
      ensures State() == Finish(old(State()), f)
    {
      match f {
        case Page(body) =>
          if body.items.Some? && |body.items.value| > 0 {
            playlists := playlists + body.items.value;
            offset := offset + |body.items.value|;
          }
          if body.next == NextNull {
            hasMore := false;
          } else if body.items.Some? {
            hasMore := |body.items.value| > 0;
          }
        case _ =>
      }
      loading := false;
    }

    /** The "+ Nova Playlist" / "Cancelar" button. */
    method ToggleForm()
      modifies this
      ensures State() == old(State()).(showCreateForm := !old(showCreateForm))
    {
      showCreateForm := !showCreateForm;
    }

    /** The form's inputs. */
    method EditForm(name: string, description: string, isPublicChoice: bool)
      modifies this
      ensures State() == old(State()).(newName := name, newDescription := description, isPublic := isPublicChoice)
    {
      newName, newDescription, isPublic := name, description, isPublicChoice;
    }

    /** `createPlaylist`: with a blank name, no request and no change; otherwise
        the form's three fields are posted, and the answer decides the state
        and the alert shown. */
    method CreatePlaylist(reply: Upstream<Playlist>) returns (sent: Option<NewPlaylist>, alert: Option<string>)
      modifies this
      ensures State() == Create(old(State()), reply)
      ensures BlankName(old(State())) ==> sent.None? && alert.None?
      ensures !BlankName(old(State())) ==>
                && sent == Some(NewPlaylist(old(newName), old(newDescription), old(isPublic)))
                && alert == Some(if reply.Ok? then CreatedAlert else FailedAlert)
    {
      if Strings.Trim(newName) == "" {
        return None, None;
      }
      sent := Some(NewPlaylist(newName, newDescription, isPublic));
      match reply {
        case Ok(p) =>
          playlists := [p] + playlists;
          newName := "";
          newDescription := "";
          showCreateForm := false;
          alert := Some(CreatedAlert);
        case Err =>
          alert := Some(FailedAlert);
      }
    }
  }

  function Load(s: PageState, f: Fetch<Playlist>): PageState
  {
    if CanLoad(s) then Finish(s.(loading := true), f) else s
  }

  function Run(s: PageState, fs: seq<Fetch<Playlist>>): PageState
    decreases |fs|
  {
    if fs == [] then s else Run(Load(s, fs[0]), fs[1..])
  }

  /** Any run of complete loads keeps offset and length in step, only appends,
      leaves the form alone, and once `hasMore` is false does nothing more. */
  lemma {:induction false} LoadsKeepOffset(s: PageState, fs: seq<Fetch<Playlist>>)
    requires s.offset == |s.playlists| && !s.loading
    ensures var r := Run(s, fs);
            && r.offset == |r.playlists| && !r.loading
            && s.playlists <= r.playlists
            && (r.showCreateForm, r.newName, r.newDescription, r.isPublic)
               == (s.showCreateForm, s.newName, s.newDescription, s.isPublic)
            && (!s.hasMore ==> r == s)
    decreases |fs|
  {
    if fs != [] {
      if CanLoad(s) {
        FinishEffect(s.(loading := true), fs[0]);
      }
      LoadsKeepOffset(Load(s, fs[0]), fs[1..]);
    }
  }
}

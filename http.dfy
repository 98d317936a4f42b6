/** HTTP vocabulary of the API server: URLs as ordered parameter lists,
    the upstream requests the server issues, and the responses it writes. */
module Http {
  import opened Wrappers

  /** A query-string or form value; numbers are kept as numbers, since
      template strings print them without change. */
  datatype Value = Text(s: string) | Number(n: int)

  /** The parameter names the system ever writes into a query string or a form
      body; `Name` gives the text that goes on the wire. */
  datatype Key =
    | ResponseType | ClientId | Scope | RedirectUri      // authorization request
    | GrantType | Code | RefreshToken                   // token requests
    | Limit | Offset | TimeRange | IncludeGroups        // resource pagination
  {
    function Name(): string
    {
      match this
      case ResponseType => "response_type"
      case ClientId => "client_id"
      case Scope => "scope"
      case RedirectUri => "redirect_uri"
      case GrantType => "grant_type"
      case Code => "code"
      case RefreshToken => "refresh_token"
      case Limit => "limit"
      case Offset => "offset"
      case TimeRange => "time_range"
      case IncludeGroups => "include_groups"
    }
  }

  datatype Param = Param(key: Key, value: Value)

  function Keys(q: seq<Param>): (ks: seq<Key>)
    ensures |ks| == |q| && forall i :: 0 <= i < |q| ==> ks[i] == q[i].key
  {
    if q == [] then [] else [q[0].key] + Keys(q[1..])
  }

  /** `base` is scheme and host (and any fixed prefix); `path` the part after the
      following '/'; `query` the parameters in the order they are written.
      Percent-encoding is not part of the model. */
  datatype Url = Url(base: string, path: string, query: seq<Param>)

  /** An Authorization header.  `Basic` holds the `id:secret` text before it is
      base64-encoded. */
  datatype Authorization = Basic(credentials: string) | Bearer(token: string)

  /** Any JSON value that can reach the server in a request body (a missing key
      reads as `Missing`, i.e. `undefined`). */
  datatype JsonValue = Missing | Null | Bool(b: bool) | Num(x: real) | Str(s: string) | Arr | Obj

  /** JavaScript truthiness, as used by `Boolean(v)`. */
  predicate Truthy(v: JsonValue)
    ensures v.Missing? || v.Null? ==> !Truthy(v)
    ensures v.Bool? ==> (Truthy(v) <==> v.b)
    ensures v.Str? ==> (Truthy(v) <==> v.s != "")
    ensures v.Arr? || v.Obj? ==> Truthy(v)
  {
    match v
    case Missing => false
    case Null => false
    case Bool(b) => b
    case Num(x) => x != 0.0
    case Str(s) => s != ""
    case Arr => true
    case Obj => true
  }

  /** An upstream JSON document the server relays without looking inside. */
  type Json = string

  /** The body of a create-playlist call to the provider. */
  datatype PlaylistBody = PlaylistBody(name: Option<string>, description: Option<string>, isPublic: bool)

  /** One outbound call: a form-encoded POST to the token endpoint, a GET of a
      resource, or the JSON POST that creates a playlist. */
  datatype Outbound =
    | TokenPost(endpoint: Url, contentType: string, form: seq<Param>, auth: Authorization)
    | ApiGet(url: Url, auth: Authorization)
    | ApiPost(url: Url, body: PlaylistBody, auth: Authorization)
  {
    function Auth(): Authorization
    {
      match this
      case TokenPost(_, _, _, a) => a
      case ApiGet(_, a) => a
      case ApiPost(_, _, a) => a
    }
  }

  /** A service method's effect: the request it sent and what it hands back to
      its caller. */
  datatype Call<+D> = Call(request: Outbound, result: Upstream<D>)

  datatype Body =
    | ErrorTag(error: string)              // {error: <tag>}
    | OkFlag                               // {ok: true}
    | OkMessage(message: string)           // {ok: true, message: <text>}
    | Relay(data: Json)                    // the upstream body, unchanged
    | ServerError                          // the framework's default error page
    | Empty                                // no JSON body (the redirect notice is not modelled)
}

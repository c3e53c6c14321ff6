/**
 * The admin router (backend/src/routes/admin.route.js): every request that
 * reaches it runs `protectRoute`, then `requireAdmin`, and only then the
 * first route whose method and path match.
 *
 * Paths are relative to the router's mount point and carry no query string.
 * Matching follows Express's defaults: letter case is ignored, one trailing
 * slash is allowed, a `:id` parameter is one non-empty raw path segment, and
 * a HEAD request is served by a GET route. A route whose path matches has its
 * parameters percent-decoded before its method is looked at; a segment that
 * does not decode stops routing with a 400 error.
 */
module AdminRoutes {
  import opened Optional
  import opened JsString
  import opened Auth
  import Catalog

  datatype Verb = Get | Head | Post | Put | Patch | Delete | Options

  /** The handlers the router dispatches to. */
  datatype Handler =
    | CheckAdmin
    | GetAllSongs
    | CreateSong
    | DeleteSong
    | GetAllAlbums
    | CreateAlbum
    | DeleteAlbum

  /** One segment of a route path: a literal, or a named parameter such as `:id`. */
  datatype Segment = Literal(text: string) | Param(name: string)

  datatype Route = Route(verb: Verb, pattern: seq<Segment>, handler: Handler)

  /** The route table, in registration order. */
  const Routes: seq<Route> := [
    Route(Get, [Literal("check")], CheckAdmin),
    Route(Get, [Literal("songs")], GetAllSongs),
    Route(Post, [Literal("songs")], CreateSong),
    Route(Delete, [Literal("songs"), Param("id")], DeleteSong),
    Route(Get, [Literal("albums")], GetAllAlbums),
    Route(Post, [Literal("albums")], CreateAlbum),
    Route(Delete, [Literal("albums"), Param("id")], DeleteAlbum)
  ]

  /** The names of the parameters of a pattern. */
  function ParamNames(pattern: seq<Segment>): set<string> {
    if pattern == [] then {}
    else (if pattern[0].Param? then {pattern[0].name} else {}) + ParamNames(pattern[1..])
  }

  /**
   * Whether `path` matches `pattern`, and the raw (still percent-encoded)
   * parameters it binds: one entry per parameter of the pattern. Each
   * segment starts with `/`; after the last one the path may end in one `/`.
   */
  function MatchPattern(pattern: seq<Segment>, path: string): (r: Option<map<string, string>>)
    ensures r.Some? ==> r.value.Keys == ParamNames(pattern)
    decreases |pattern|
  {
    if pattern == [] then (if path == "" || path == "/" then Some(map[]) else None)
    else if path == "" || path[0] != '/' then None
    else
      var segment := BeforeFirst(path[1..], '/');
      var rest := path[1 + |segment|..];
      match pattern[0]
      case Literal(text) =>
        if LowerAsciiString(segment) == text then MatchPattern(pattern[1..], rest) else None
      case Param(name) =>
        if segment == "" then None
        else match MatchPattern(pattern[1..], rest)
          case None => None
          case Some(params) => Some(params[name := segment])
  }

  predicate VerbMatches(routeVerb: Verb, requestVerb: Verb) {
    routeVerb == requestVerb || (requestVerb == Head && routeVerb == Get)
  }

  /**
   * Express's `decode_param`: `decodeURIComponent` of a raw segment.
   * A segment without `%` decodes to itself; for one with `%` the result
   * comes from `decodeEscapes`, `None` where the escape is malformed.
   */
  function DecodeParam(raw: string, decodeEscapes: string -> Option<string>): Option<string> {
    if '%' !in raw then Some(raw) else decodeEscapes(raw)
  }

  /** Every parameter decoded, or `None` when one of them does not decode. */
  function DecodeParams(raw: map<string, string>, decodeEscapes: string -> Option<string>): Option<map<string, string>> {
    if forall name :: name in raw ==> DecodeParam(raw[name], decodeEscapes).Some? then
      Some(map name | name in raw :: DecodeParam(raw[name], decodeEscapes).value)
    else None
  }

  /** The result of looking a request up in a route table. */
  datatype RouteResult =
    | Matched(handler: Handler, params: map<string, string>)
    | Unmatched
    | BadParam

  /**
   * The first route that serves the request, with its decoded parameters.
   * Routes are tried in order; a route whose path matches has its
   * parameters decoded first, and a decoding failure ends the search, even
   * when that route's method would not have served the request.
   */
  function FindRoute(routes: seq<Route>, verb: Verb, path: string, decodeEscapes: string -> Option<string>): (r: RouteResult)
    ensures r.Matched? ==> exists i ::
              && 0 <= i < |routes| && routes[i].handler == r.handler
              && VerbMatches(routes[i].verb, verb) && MatchPattern(routes[i].pattern, path).Some?
              && DecodeParams(MatchPattern(routes[i].pattern, path).value, decodeEscapes) == Some(r.params)
    ensures r.BadParam? ==> exists i ::
              && 0 <= i < |routes| && MatchPattern(routes[i].pattern, path).Some?
              && DecodeParams(MatchPattern(routes[i].pattern, path).value, decodeEscapes) == None
    ensures r.Unmatched? ==> forall i :: 0 <= i < |routes| && VerbMatches(routes[i].verb, verb) ==>
      MatchPattern(routes[i].pattern, path).None?
  {
    if routes == [] then Unmatched
    else
      var r := match MatchPattern(routes[0].pattern, path)
        case None => FindRoute(routes[1..], verb, path, decodeEscapes)
        case Some(raw) =>
          match DecodeParams(raw, decodeEscapes)
          case None => BadParam
          case Some(params) =>
            if VerbMatches(routes[0].verb, verb) then Matched(routes[0].handler, params)
            else FindRoute(routes[1..], verb, path, decodeEscapes);
      assert forall i :: 0 < i < |routes| ==> routes[i] == routes[1..][i - 1];
      r
  }

  datatype Request = Request(verb: Verb, path: string, userId: Option<string>)

  /**
   * The configured administrator email, the identity provider's user
   * lookup, and `decodeURIComponent` on segments that hold a `%`.
   */
  datatype Environment = Environment(
    adminEmail: Option<string>,
    getUser: string -> UserLookup,
    decodeEscapes: string -> Option<string>)

  /** What the router does with a request. */
  datatype Outcome =
    | Responded(status: nat, message: string)
    | Failed
    | MalformedParam
    | Dispatched(handler: Handler, params: map<string, string>)
    | NoRoute

  /**
   * `router.use(protectRoute, requireAdmin)` followed by the route table.
   * `MalformedParam` is the error with status 400 that Express passes to
   * `next` when a parameter does not decode.
   */
  function Handle(req: Request, env: Environment): (r: Outcome)
    ensures r.Dispatched? || r.NoRoute? || r.MalformedParam? <==> Admitted(req, env)
    ensures r.Responded? ==> r.status in {401, 403}
  {
    match ProtectRoute(req.userId)
    case Deny(status, message) => Responded(status, message)
    case ContinueWithError => Failed
    case Continue =>
      match RequireAdmin(req.userId.value, env.adminEmail, env.getUser)
      case Deny(status, message) => Responded(status, message)
      case ContinueWithError => Failed
      case Continue =>
        match FindRoute(Routes, req.verb, req.path, env.decodeEscapes)
        case Unmatched => NoRoute
        case BadParam => MalformedParam
        case Matched(handler, params) => Dispatched(handler, params)
  }

  predicate Admitted(req: Request, env: Environment) {
    && SignedIn(req.userId)
    && env.getUser(req.userId.value).Found?
    && env.getUser(req.userId.value).primaryEmail == env.adminEmail
  }

  /** The table has exactly seven routes and no two share a method and a path. */
  lemma RouteTableShape()
    ensures |Routes| == 7
    ensures forall i, j :: 0 <= i < j < |Routes| ==>
      Routes[i].verb != Routes[j].verb || Routes[i].pattern != Routes[j].pattern
    ensures forall i :: 0 <= i < |Routes| ==> Routes[i].verb in {Get, Post, Delete}
  {
  }

  /** A request without a user id is answered 401 on every path and no handler runs. */
  lemma UnauthenticatedGets401(req: Request, env: Environment)
    requires !SignedIn(req.userId)
    ensures Handle(req, env) == Responded(401, NotSignedIn)
  {
  }

  /** A signed-in user whose email is not the administrator's is answered 403 on every path. */
  lemma NonAdminGets403(req: Request, env: Environment)
    requires SignedIn(req.userId)
    requires env.getUser(req.userId.value).Found?
    requires env.getUser(req.userId.value).primaryEmail != env.adminEmail
    ensures Handle(req, env) == Responded(403, NotAdmin)
  {
  }

  /** A failed user lookup is passed on as an error on every path. */
  lemma LookupFailureFails(req: Request, env: Environment)
    requires SignedIn(req.userId)
    requires env.getUser(req.userId.value) == LookupFailed
    ensures Handle(req, env) == Failed
  {
  }

  /** Every raw value bound to a parameter, before decoding, is one non-empty path segment. */
  lemma {:induction false} ParamsAreSegments(pattern: seq<Segment>, path: string)
    ensures MatchPattern(pattern, path).Some? ==>
      forall name :: name in MatchPattern(pattern, path).value ==>
        MatchPattern(pattern, path).value[name] != "" && '/' !in MatchPattern(pattern, path).value[name]
    decreases |pattern|
  {
    if pattern != [] && path != "" && path[0] == '/' {
      var segment := BeforeFirst(path[1..], '/');
      ParamsAreSegments(pattern[1..], path[1 + |segment|..]);
    }
  }

  /** An admitted `GET /check` reaches `checkAdmin`, which answers 200 with `{ admin: true }`. */
  lemma CheckRouteAnswersAdmin(req: Request, env: Environment)
    requires Admitted(req, env)
    requires req.verb == Get && req.path == "/check"
    ensures Handle(req, env) == Dispatched(CheckAdmin, map[])
    ensures Catalog.CheckAdmin() == Catalog.Json(200, Catalog.AdminStatus(true))
  {
    assert BeforeFirst("check", '/') == "check";
    assert DecodeParams(map[], env.decodeEscapes) == Some(map[]);
  }

  /** The path `/seg` followed by `rest` splits into the segment `seg` and the remainder `rest`. */
  lemma SplitSegment(segment: string, rest: string)
    requires '/' !in segment
    requires rest == "" || rest[0] == '/'
    ensures var path := "/" + segment + rest;
      BeforeFirst(path[1..], '/') == segment && path[1 + |segment|..] == rest
  {
    var path := "/" + segment + rest;
    assert path[1..] == segment + rest;
    if rest == "" {
      assert path[1..] == segment;
      BeforeFirstWithout(segment, '/');
    } else {
      assert path[1..] == segment + "/" + rest[1..];
      BeforeFirstOfJoin(segment, '/', rest[1..]);
    }
  }

  /** Routes whose path does not match are passed over. */
  lemma {:induction false} FindRouteSkips(routes: seq<Route>, verb: Verb, path: string, decodeEscapes: string -> Option<string>, k: nat)
    requires k <= |routes|
    requires forall i :: 0 <= i < k ==> MatchPattern(routes[i].pattern, path).None?
    ensures FindRoute(routes, verb, path, decodeEscapes) == FindRoute(routes[k..], verb, path, decodeEscapes)
  {
    if k > 0 {
      FindRouteSkips(routes[1..], verb, path, decodeEscapes, k - 1);
      assert routes[1..][k - 1..] == routes[k..];
    }
  }

  /** A literal segment is consumed when it matches, and the path is refused when it does not. */
  lemma MatchLiteral(text: string, pattern: seq<Segment>, segment: string, rest: string)
    requires '/' !in segment
    requires rest == "" || rest[0] == '/'
    ensures MatchPattern([Literal(text)] + pattern, "/" + segment + rest)
      == if LowerAsciiString(segment) == text then MatchPattern(pattern, rest) else None
  {
    SplitSegment(segment, rest);
    assert ([Literal(text)] + pattern)[1..] == pattern;
  }

  /** A final parameter binds the last, non-empty segment. */
  lemma MatchLastParam(name: string, segment: string)
    requires '/' !in segment && segment != ""
    ensures MatchPattern([Param(name)], "/" + segment) == Some(map[name := segment])
  {
    assert "/" + segment == "/" + segment + "";
    SplitSegment(segment, "");
  }

  /** `/songs/<id>` matches `/songs/:id` and binds `id` to the raw segment. */
  lemma SongPathMatches(id: string)
    requires id != "" && '/' !in id
    ensures MatchPattern([Literal("songs"), Param("id")], "/songs/" + id) == Some(map["id" := id])
  {
    assert "/songs/" + id == "/" + "songs" + ("/" + id);
    LowerAsciiUnchanged("songs");
    assert [Literal("songs"), Param("id")] == [Literal("songs")] + [Param("id")];
    MatchLiteral("songs", [Param("id")], "songs", "/" + id);
    MatchLastParam("id", id);
  }

  /** `/songs/<id>` does not match a pattern that starts with another literal. */
  lemma SongPathMissesLiteral(text: string, pattern: seq<Segment>, id: string)
    requires text != "songs"
    requires '/' !in id
    ensures MatchPattern([Literal(text)] + pattern, "/songs/" + id).None?
  {
    assert "/songs/" + id == "/" + "songs" + ("/" + id);
    LowerAsciiUnchanged("songs");
    MatchLiteral(text, pattern, "songs", "/" + id);
  }

  /** `/songs/<id>` does not match `/songs`: the id segment is left over. */
  lemma SongPathMissesSongs(id: string)
    requires id != "" && '/' !in id
    ensures MatchPattern([Literal("songs")], "/songs/" + id).None?
  {
    assert "/songs/" + id == "/" + "songs" + ("/" + id);
    LowerAsciiUnchanged("songs");
    assert [Literal("songs")] == [Literal("songs")] + [];
    MatchLiteral("songs", [], "songs", "/" + id);
  }

  /** `/songs/<id>` matches none of the first three routes of the table. */
  lemma SongPathMissesFirstRoutes(id: string)
    requires id != "" && '/' !in id
    ensures forall i :: 0 <= i < 3 ==> MatchPattern(Routes[i].pattern, "/songs/" + id).None?
  {
    forall i | 0 <= i < 3
      ensures MatchPattern(Routes[i].pattern, "/songs/" + id).None?
    {
      if i == 0 {
        assert Routes[i].pattern == [Literal("check")] + [];
        SongPathMissesLiteral("check", [], id);
      } else {
        assert Routes[i].pattern == [Literal("songs")];
        SongPathMissesSongs(id);
      }
    }
  }

  /** `/songs/<id>` matches none of the album routes, the last three of the table. */
  lemma SongPathMissesAlbumRoutes(id: string)
    requires '/' !in id
    ensures forall i :: 0 <= i < 3 ==> MatchPattern(Routes[4..][i].pattern, "/songs/" + id).None?
  {
    forall i | 0 <= i < 3
      ensures MatchPattern(Routes[4..][i].pattern, "/songs/" + id).None?
    {
      if i < 2 {
        assert Routes[4..][i].pattern == [Literal("albums")] + [];
        SongPathMissesLiteral("albums", [], id);
      } else {
        assert Routes[4..][i].pattern == [Literal("albums")] + [Param("id")];
        SongPathMissesLiteral("albums", [Param("id")], id);
      }
    }
  }

  /** A single raw parameter decodes exactly when its segment does. */
  lemma DecodeOne(name: string, raw: string, decodeEscapes: string -> Option<string>)
    ensures DecodeParams(map[name := raw], decodeEscapes)
      == match DecodeParam(raw, decodeEscapes)
         case None => None
         case Some(v) => Some(map[name := v])
  {
    var m := map[name := raw];
    if DecodeParam(raw, decodeEscapes).Some? {
      assert DecodeParams(m, decodeEscapes).value == map[name := DecodeParam(raw, decodeEscapes).value];
    } else {
      assert !DecodeParam(m[name], decodeEscapes).Some?;
    }
  }

  /**
   * Routing `/songs/<id>` for any method: a segment that does not decode is
   * refused with 400 whatever the method, because `/songs/:id` matches the
   * path before its method is checked; otherwise DELETE reaches `deleteSong`
   * with the decoded id and every other method finds no route.
   */
  lemma SongPathRouted(verb: Verb, id: string, decodeEscapes: string -> Option<string>)
    requires id != "" && '/' !in id
    ensures FindRoute(Routes, verb, "/songs/" + id, decodeEscapes)
      == match DecodeParam(id, decodeEscapes)
         case None => BadParam
         case Some(v) => if verb == Delete then Matched(DeleteSong, map["id" := v]) else Unmatched
  {
    var path := "/songs/" + id;
    SongPathMissesFirstRoutes(id);
    FindRouteSkips(Routes, verb, path, decodeEscapes, 3);
    SongPathMatches(id);
    DecodeOne("id", id, decodeEscapes);
    SongPathMissesAlbumRoutes(id);
    FindRouteSkips(Routes[4..], verb, path, decodeEscapes, 3);
    assert Routes[4..][3..] == [];
  }

  /**
   * An admitted `DELETE /songs/<id>` reaches `deleteSong` with the decoded
   * id, which is the segment itself when it holds no `%`; a segment that
   * does not decode gets the 400 error instead.
   */
  lemma DeleteSongRouteBindsId(req: Request, env: Environment, id: string)
    requires Admitted(req, env)
    requires id != "" && '/' !in id
    requires req.verb == Delete && req.path == "/songs/" + id
    ensures Handle(req, env)
      == match DecodeParam(id, env.decodeEscapes)
         case None => MalformedParam
         case Some(v) => Dispatched(DeleteSong, map["id" := v])
    ensures '%' !in id ==> Handle(req, env) == Dispatched(DeleteSong, map["id" := id])
  {
    SongPathRouted(Delete, id, env.decodeEscapes);
  }

  /** An admitted request for `/songs/<id>` whose segment does not decode is refused with 400 for every method. */
  lemma MalformedSongIdRejected(req: Request, env: Environment, id: string)
    requires Admitted(req, env)
    requires id != "" && '/' !in id
    requires req.path == "/songs/" + id
    requires DecodeParam(id, env.decodeEscapes) == None
    ensures Handle(req, env) == MalformedParam
  {
    SongPathRouted(req.verb, id, env.decodeEscapes);
  }
}

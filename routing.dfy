/** What the three routers share: a route is a verb, a path pattern, the
    middleware chain that runs before the controller, and the controller.
    A request is served by the first registered route whose verb and
    pattern match, in registration order. */
module Routing {
  import opened Common

  datatype Verb = GET | POST | PATCH | DELETE

  /** A pattern segment: fixed text, or a `:name` parameter. */
  datatype Segment = Lit(text: string) | Param(name: string)

  datatype Schema = UpdateUserSchema | CreateNoteSchema | UpdateNoteSchema | CreatePostSchema

  /** `checkAuth(...roles)` or `validateRequest(schema)`. */
  datatype Middleware = Auth(roles: seq<Role>) | Validate(schema: Schema)

  datatype Handler =
    | CreateUser | GetAllUsers | GetMe | GetUsersByInterests | GetUserPosts | GetSingleUser | UpdateUser
    | CreateNote | GetMyNotes | GetAllNotes | GetSingleNote | UpdateNote | DeleteNote
    | CreatePost | GetAllPosts | DeletePost | UpdatePost

  datatype Route = Route(verb: Verb, pattern: seq<Segment>, chain: seq<Middleware>, handler: Handler)

  /** A parameter matches any non-empty segment, fixed text only itself. */
  predicate SegmentMatches(seg: Segment, part: string) {
    match seg
    case Lit(text) => part == text
    case Param(_) => part != ""
  }

  predicate PatternMatches(pattern: seq<Segment>, path: seq<string>) {
    if pattern == [] then path == []
    else path != [] && SegmentMatches(pattern[0], path[0]) && PatternMatches(pattern[1..], path[1..])
  }

  predicate Matches(r: Route, verb: Verb, path: seq<string>) {
    r.verb == verb && PatternMatches(r.pattern, path)
  }

  /** The route that serves the request: the first registered match. */
  function Dispatch(routes: seq<Route>, verb: Verb, path: seq<string>): (r: Option<Route>)
    ensures r.None? <==> forall k :: 0 <= k < |routes| ==> !Matches(routes[k], verb, path)
    ensures r.Some? ==> exists k :: 0 <= k < |routes| && routes[k] == r.value && Matches(r.value, verb, path)
                                    && forall j :: 0 <= j < k ==> !Matches(routes[j], verb, path)
  {
    if routes == [] then None
    else if Matches(routes[0], verb, path) then Some(routes[0])
    else
      var r := Dispatch(routes[1..], verb, path);
      assert r.Some? ==> exists k :: 0 <= k < |routes| && routes[k] == r.value && Matches(r.value, verb, path)
                                    && forall j :: 0 <= j < k ==> !Matches(routes[j], verb, path) by {
        if r.Some? {
          var k :| 0 <= k < |routes[1..]| && routes[1..][k] == r.value && Matches(r.value, verb, path)
                    && forall j :: 0 <= j < k ==> !Matches(routes[1..][j], verb, path);
          assert routes[k + 1] == r.value;
          forall j | 0 <= j < k + 1 ensures !Matches(routes[j], verb, path) {
            if j > 0 { assert routes[j] == routes[1..][j - 1]; }
          }
        }
      }
      r
  }

  /** The k-th route serves the request when it matches and no earlier one does. */
  lemma DispatchAt(routes: seq<Route>, k: nat, verb: Verb, path: seq<string>)
    requires k < |routes| && Matches(routes[k], verb, path)
    requires forall j :: 0 <= j < k ==> !Matches(routes[j], verb, path)
    ensures Dispatch(routes, verb, path) == Some(routes[k])
  {
    var r := Dispatch(routes, verb, path);
    var k' :| 0 <= k' < |routes| && routes[k'] == r.value && Matches(r.value, verb, path)
              && forall j :: 0 <= j < k' ==> !Matches(routes[j], verb, path);
  }

  /** The roles of the first `checkAuth` in a chain; None when the chain
      does not authenticate. */
  function AuthRoles(chain: seq<Middleware>): (r: Option<seq<Role>>)
    ensures r.None? <==> forall i :: 0 <= i < |chain| ==> !chain[i].Auth?
    ensures r.Some? ==> exists i :: 0 <= i < |chain| && chain[i] == Auth(r.value)
  {
    if chain == [] then None
    else if chain[0].Auth? then Some(chain[0].roles)
    else
      var r := AuthRoles(chain[1..]);
      if r.Some? then
        assert exists i :: 0 <= i < |chain| && chain[i] == Auth(r.value) by {
          var i :| 0 <= i < |chain[1..]| && chain[1..][i] == Auth(r.value);
          assert chain[i + 1] == Auth(r.value);
        }
        r
      else
        assert forall i :: 0 <= i < |chain| ==> !chain[i].Auth? by {
          forall i | 0 <= i < |chain| ensures !chain[i].Auth? {
            if i > 0 { assert chain[i] == chain[1..][i - 1]; }
          }
        }
        r
  }

  /** The request is served by a route with this controller. */
  predicate ServedBy(routes: seq<Route>, verb: Verb, path: seq<string>, h: Handler) {
    var r := Dispatch(routes, verb, path);
    r.Some? && r.value.handler == h
  }

  /** The request is served by a route with this middleware chain. */
  predicate RunsChain(routes: seq<Route>, verb: Verb, path: seq<string>, chain: seq<Middleware>) {
    var r := Dispatch(routes, verb, path);
    r.Some? && r.value.chain == chain
  }

  /** The permission matrix: whether a caller whose token carries `role`
      gets past the route's `checkAuth` (an unauthenticated route admits anyone). */
  predicate Admits(routes: seq<Route>, verb: Verb, path: seq<string>, role: Role) {
    var r := Dispatch(routes, verb, path);
    r.Some? && (AuthRoles(r.value.chain).None? || role in AuthRoles(r.value.chain).value)
  }
}

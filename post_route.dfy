/** The `/posts` router, in registration order. */
module PostRoutes {
  import opened Common
  import opened Routing

  const Routes: seq<Route> := [
    Route(POST, [], [Auth(Everyone), Validate(CreatePostSchema)], CreatePost),
    Route(GET, [], [Auth(Everyone)], GetAllPosts),
    Route(DELETE, [Param("id")], [Auth(Everyone)], DeletePost)
  ]

  /** Create, list and delete are open to every role; create authenticates
      before it validates; delete leaves ownership to the service. */
  lemma OpenRoutes(id: string, role: Role)
    requires id != ""
    ensures RunsChain(Routes, POST, [], [Auth(Everyone), Validate(CreatePostSchema)])
    ensures ServedBy(Routes, GET, [], GetAllPosts)
    ensures ServedBy(Routes, DELETE, [id], DeletePost)
    ensures Admits(Routes, POST, [], role) && Admits(Routes, GET, [], role) && Admits(Routes, DELETE, [id], role)
  {
    DispatchAt(Routes, 0, POST, []);
    DispatchAt(Routes, 1, GET, []);
    DispatchAt(Routes, 2, DELETE, [id]);
  }

  /** No PATCH route is registered: no request reaches the update controller. */
  lemma UpdateUnreachable(verb: Verb, path: seq<string>)
    ensures Dispatch(Routes, PATCH, path).None?
    ensures Dispatch(Routes, verb, path).Some? ==> Dispatch(Routes, verb, path).value.handler != UpdatePost
  {
  }
}

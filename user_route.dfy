/** The `/user` router, in registration order. */
module UserRoutes {
  import opened Common
  import opened Routing

  const Routes: seq<Route> := [
    Route(POST, [Lit("register")], [], CreateUser),
    Route(GET, [Lit("all-users")], [Auth(Privileged)], GetAllUsers),
    Route(GET, [Lit("me")], [Auth(AllRoles)], GetMe),
    Route(GET, [Lit("get-grouped-users-by-interests")], [Auth(Privileged)], GetUsersByInterests),
    Route(GET, [Lit("get-user-posts"), Param("id")], [Auth(Everyone)], GetUserPosts),
    Route(GET, [Param("id")], [Auth(Privileged)], GetSingleUser),
    Route(PATCH, [Param("id")], [Validate(UpdateUserSchema), Auth(AllRoles)], UpdateUser)
  ]

  /** Registration runs no middleware at all: neither authentication nor
      body validation. */
  lemma RegisterIsOpen(role: Role)
    ensures Dispatch(Routes, POST, ["register"]) == Some(Routes[0])
    ensures Routes[0].chain == [] && Admits(Routes, POST, ["register"], role)
  {
    DispatchAt(Routes, 0, POST, ["register"]);
  }

  /** The fixed GET paths are registered before `GET /:id`, which their
      single segment would also match, so each is served by its own
      controller: the user listing is for ADMIN and SUPER_ADMIN only. */
  lemma AllUsersBeforeId(role: Role)
    ensures Matches(Routes[5], GET, ["all-users"])
    ensures ServedBy(Routes, GET, ["all-users"], GetAllUsers)
    ensures Admits(Routes, GET, ["all-users"], role) <==> IsPrivileged(role)
  {
    DispatchAt(Routes, 1, GET, ["all-users"]);
  }

  /** `/me` wins over `GET /:id` and is open to every role. */
  lemma MeBeforeId(role: Role)
    ensures Matches(Routes[5], GET, ["me"])
    ensures ServedBy(Routes, GET, ["me"], GetMe)
    ensures Admits(Routes, GET, ["me"], role)
  {
    DispatchAt(Routes, 2, GET, ["me"]);
    AllRolesComplete(role);
  }

  /** The interest grouping wins over `GET /:id` and is for ADMIN and
      SUPER_ADMIN only. */
  lemma GroupedBeforeId(role: Role)
    ensures ServedBy(Routes, GET, ["get-grouped-users-by-interests"], GetUsersByInterests)
    ensures Admits(Routes, GET, ["get-grouped-users-by-interests"], role) <==> IsPrivileged(role)
  {
    DispatchAt(Routes, 3, GET, ["get-grouped-users-by-interests"]);
  }

  /** Any other single segment is an id: reading a user is for ADMIN and
      SUPER_ADMIN only. */
  lemma GetUserById(id: string, role: Role)
    requires id != "" && id != "all-users" && id != "me" && id != "get-grouped-users-by-interests"
    ensures ServedBy(Routes, GET, [id], GetSingleUser)
    ensures Admits(Routes, GET, [id], role) <==> IsPrivileged(role)
  {
    assert Routes[4].pattern[1..] == [Param("id")] && [id][1..] == [];
    assert !PatternMatches([Param("id")], []);
    DispatchAt(Routes, 5, GET, [id]);
  }

  /** A user's posts are open to every role. */
  lemma UserPostsOpen(id: string, role: Role)
    requires id != ""
    ensures ServedBy(Routes, GET, ["get-user-posts", id], GetUserPosts)
    ensures Admits(Routes, GET, ["get-user-posts", id], role)
  {
    DispatchAt(Routes, 4, GET, ["get-user-posts", id]);
  }

  /** Updating a user validates the body before authenticating, and is open
      to every role (the service then applies its own cascade). */
  lemma PatchValidatesFirst(id: string, role: Role)
    requires id != ""
    ensures RunsChain(Routes, PATCH, [id], [Validate(UpdateUserSchema), Auth(AllRoles)])
    ensures ServedBy(Routes, PATCH, [id], UpdateUser)
    ensures Admits(Routes, PATCH, [id], role)
  {
    DispatchAt(Routes, 6, PATCH, [id]);
    AllRolesComplete(role);
  }
}

/** The `/notes` router, in registration order. */
module NoteRoutes {
  import opened Common
  import opened Routing

  const Routes: seq<Route> := [
    Route(POST, [], [Auth(Everyone), Validate(CreateNoteSchema)], CreateNote),
    Route(GET, [], [Auth(Everyone)], GetMyNotes),
    Route(GET, [Lit("all-notes")], [Auth(Privileged)], GetAllNotes),
    Route(GET, [Param("id")], [Auth(Everyone)], GetSingleNote),
    Route(PATCH, [Param("id")], [Auth(Everyone), Validate(UpdateNoteSchema)], UpdateNote),
    Route(DELETE, [Param("id")], [Auth(Everyone)], DeleteNote)
  ]

  /** `GET /` lists the caller's own notes; create authenticates before it
      validates with the create schema; both are open to every role. */
  lemma CollectionRoutes(role: Role)
    ensures ServedBy(Routes, GET, [], GetMyNotes)
    ensures RunsChain(Routes, POST, [], [Auth(Everyone), Validate(CreateNoteSchema)])
    ensures Admits(Routes, GET, [], role) && Admits(Routes, POST, [], role)
  {
    DispatchAt(Routes, 0, POST, []);
    DispatchAt(Routes, 1, GET, []);
  }

  /** `/all-notes` is registered before `GET /:id`, so it is not taken for
      an id, and it is for ADMIN and SUPER_ADMIN only. */
  lemma AllNotesBeforeId(role: Role)
    ensures Matches(Routes[3], GET, ["all-notes"])
    ensures ServedBy(Routes, GET, ["all-notes"], GetAllNotes)
    ensures Admits(Routes, GET, ["all-notes"], role) <==> IsPrivileged(role)
  {
    DispatchAt(Routes, 2, GET, ["all-notes"]);
  }

  /** Reading one note is open to every role (the service checks
      ownership); `/all-notes` is the only single segment it does not take. */
  lemma ReadNoteRoute(id: string, role: Role)
    requires id != "" && id != "all-notes"
    ensures ServedBy(Routes, GET, [id], GetSingleNote)
    ensures Admits(Routes, GET, [id], role)
  {
    DispatchAt(Routes, 3, GET, [id]);
  }

  /** Updating one note is open to every role; it authenticates, then
      validates with the update schema. */
  lemma UpdateNoteRoute(id: string, role: Role)
    requires id != ""
    ensures RunsChain(Routes, PATCH, [id], [Auth(Everyone), Validate(UpdateNoteSchema)])
    ensures ServedBy(Routes, PATCH, [id], UpdateNote)
    ensures Admits(Routes, PATCH, [id], role)
  {
    DispatchAt(Routes, 4, PATCH, [id]);
  }

  /** Deleting one note is open to every role. */
  lemma DeleteNoteRoute(id: string, role: Role)
    requires id != ""
    ensures ServedBy(Routes, DELETE, [id], DeleteNote)
    ensures Admits(Routes, DELETE, [id], role)
  {
    DispatchAt(Routes, 5, DELETE, [id]);
  }
}

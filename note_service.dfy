/** The note service: creation stamped with the caller as author, the base
    scopes of the two list endpoints, and the read, update and delete of
    one note behind the NOT_FOUND-then-FORBIDDEN ownership guard. */
module NoteService {
  import opened Common
  import opened Documents

  /** The create body after validation; an `author` in it is overridden. */
  datatype NotePayload = NotePayload(title: string, content: string, author: Option<Id>, isDeleted: Option<bool>)

  /** A partial update; None is "field not sent". */
  datatype NotePatch = NotePatch(title: Option<string>, content: Option<string>, author: Option<Id>, isDeleted: Option<bool>)

  /** A note with its author populated as name and email (None: JSON null). */
  datatype PopulatedNote = PopulatedNote(id: Id, title: string, content: string, author: Option<AuthorRef>, isDeleted: bool)

  function ApplyNotePatch(n: Note, p: NotePatch): Note {
    n.(title := p.title.GetOr(n.title),
       content := p.content.GetOr(n.content),
       author := p.author.GetOr(n.author),
       isDeleted := p.isDeleted.GetOr(n.isDeleted))
  }

  /** An update keeps the id; every field the patch sends replaces the
      stored one and every field it leaves out is kept; an empty patch keeps
      the whole note, and applying a patch twice is applying it once. */
  lemma ApplyNotePatchLaws(n: Note, p: NotePatch)
    ensures ApplyNotePatch(n, p).id == n.id
    ensures p.title.Some? ==> ApplyNotePatch(n, p).title == p.title.value
    ensures p.title.None? ==> ApplyNotePatch(n, p).title == n.title
    ensures p.content.Some? ==> ApplyNotePatch(n, p).content == p.content.value
    ensures p.content.None? ==> ApplyNotePatch(n, p).content == n.content
    ensures p.author.Some? ==> ApplyNotePatch(n, p).author == p.author.value
    ensures p.author.None? ==> ApplyNotePatch(n, p).author == n.author
    ensures p.isDeleted.Some? ==> ApplyNotePatch(n, p).isDeleted == p.isDeleted.value
    ensures p.isDeleted.None? ==> ApplyNotePatch(n, p).isDeleted == n.isDeleted
    ensures ApplyNotePatch(n, NotePatch(None, None, None, None)) == n
    ensures ApplyNotePatch(ApplyNotePatch(n, p), p) == ApplyNotePatch(n, p)
  {
  }

  function AuthorOf(notes: map<Id, Note>, id: Id): (r: Option<Id>)
    ensures r.Some? <==> id in notes
  {
    if id in notes then Some(notes[id].author) else None
  }

  /** `getMyNotes` starts from the caller's own notes, unpopulated. */
  function MyNotesQuery(caller: Token): (q: BaseQuery)
    ensures forall author :: InScope(q, author) <==> author == caller.userId
    ensures !q.populateAuthor && q.search == NoteSearchableFields
  {
    BaseQuery(Some(caller.userId), false, NoteSearchableFields)
  }

  /** `getAllNotes` starts from every note, the author populated. */
  function AllNotesQuery(): (q: BaseQuery)
    ensures forall author :: InScope(q, author)
    ensures q.populateAuthor && q.search == NoteSearchableFields
  {
    BaseQuery(None, true, NoteSearchableFields)
  }

  class NoteStore {
    var notes: map<Id, Note>

    /** Every note is stored under its own id. */
    ghost predicate Valid()
      reads this
    {
      forall id :: id in notes ==> notes[id].id == id
    }

    constructor ()
      ensures Valid() && notes == map[]
    {
      notes := map[];
    }

    /** `createNote`: the payload spread first, then `author: user.userId`. */
    method CreateNote(p: NotePayload, caller: Token, freshId: Id) returns (n: Note)
      requires Valid() && freshId !in notes
      modifies this
      ensures Valid()
      ensures n == Note(freshId, p.title, p.content, caller.userId, p.isDeleted.GetOr(false))
      ensures notes == old(notes)[freshId := n]
    {
      n := Note(freshId, p.title, p.content, caller.userId, p.isDeleted.GetOr(false));
      notes := notes[freshId := n];
    }

    /** `getSingleNote`: the author is populated before the ownership test,
        which reads `note.author._id`; for a caller that is neither ADMIN nor
        SUPER_ADMIN a note whose author no longer exists therefore fails with
        a null dereference instead of a 403. */
    function GetSingleNote(id: Id, caller: Token, users: map<Id, User>): (r: Result<PopulatedNote>)
      reads this
      ensures id !in notes ==> r == Err(ApiError(NOT_FOUND, "Note not found"))
      ensures r.Ok? ==> id in notes && MayModify(caller, notes[id].author)
                        && r.value == PopulatedNote(id, notes[id].title, notes[id].content,
                                                    PopulateAuthor(users, notes[id].author), notes[id].isDeleted)
      ensures id in notes && IsPrivileged(caller.role) ==> r.Ok?
      ensures id in notes && notes[id].author in users ==>
                (r.Ok? <==> MayModify(caller, notes[id].author))
                && (r.Err? ==> r.error == ApiError(FORBIDDEN, "You are not authorized to view this note"))
      ensures id in notes && notes[id].author !in users && !IsPrivileged(caller.role) ==>
                r == Err(NullDereference)
    {
      if id !in notes then
        Err(ApiError(NOT_FOUND, "Note not found"))
      else
        var n := notes[id];
        var populated := PopulatedNote(id, n.title, n.content, PopulateAuthor(users, n.author), n.isDeleted);
        if caller.role != ADMIN && caller.role != SUPER_ADMIN then
          if populated.author.None? then
            Err(NullDereference)
          else if populated.author.value.id != caller.userId then
            Err(ApiError(FORBIDDEN, "You are not authorized to view this note"))
          else
            Ok(populated)
        else
          Ok(populated)
    }

    /** `updateNote`: NOT_FOUND, then the ownership test, then the patch is
        applied to the addressed note alone, which is returned updated. */
    method UpdateNote(id: Id, p: NotePatch, caller: Token) returns (r: Result<Note>)
      requires Valid()
      modifies this
      ensures Valid()
      ensures match OwnershipGuard(AuthorOf(old(notes), id), caller, "Note not found", "You can only update your own notes")
              case Some(e) => r == Err(e) && notes == old(notes)
              case None => r == Ok(ApplyNotePatch(old(notes)[id], p)) && notes == old(notes)[id := r.value]
    {
      if id !in notes {
        return Err(ApiError(NOT_FOUND, "Note not found"));
      }
      var note := notes[id];
      if caller.role != ADMIN && caller.role != SUPER_ADMIN && note.author != caller.userId {
        return Err(ApiError(FORBIDDEN, "You can only update your own notes"));
      }
      var updated := ApplyNotePatch(note, p);
      notes := notes[id := updated];
      r := Ok(updated);
    }

    /** `deleteNote`: NOT_FOUND, then the ownership test, then the addressed
        note alone is removed and null is returned. */
    method DeleteNote(id: Id, caller: Token) returns (r: Result<()>)
      requires Valid()
      modifies this
      ensures Valid()
      ensures match OwnershipGuard(AuthorOf(old(notes), id), caller, "Note not found", "You can only delete your own notes")
              case Some(e) => r == Err(e) && notes == old(notes)
              case None => r == Ok(()) && notes == old(notes) - {id}
    {
      if id !in notes {
        return Err(ApiError(NOT_FOUND, "Note not found"));
      }
      var note := notes[id];
      if caller.role != ADMIN && caller.role != SUPER_ADMIN && note.author != caller.userId {
        return Err(ApiError(FORBIDDEN, "You can only delete your own notes"));
      }
      notes := notes - {id};
      r := Ok(());
    }
  }

  /** Reading a note and changing it are granted to the same callers
      whenever its author still exists. */
  lemma ReadAgreesWithWrite(store: NoteStore, id: Id, caller: Token, users: map<Id, User>)
    requires id in store.notes && store.notes[id].author in users
    ensures store.GetSingleNote(id, caller, users).Ok? <==>
            OwnershipGuard(AuthorOf(store.notes, id), caller, "Note not found", "You can only update your own notes").None?
  {
  }
}

/** The stored documents of the three collections and the shape of the
    base query a list endpoint hands to its query builder. Every document
    carries its own `_id` as `id`. */
module Documents {
  import opened Common

  datatype AuthProvider = AuthProvider(provider: string, providerId: string)

  /** A user document. The fields whose value comes from a schema default
      when the creator leaves them out are Option: None is "not set". */
  datatype User = User(
    id: Id,
    name: string,
    email: string,
    password: Option<string>,
    phone: Option<string>,
    picture: Option<string>,
    address: Option<string>,
    role: Option<Role>,
    isActive: Option<IsActive>,
    isDeleted: Option<bool>,
    isVerified: Option<bool>,
    interests: seq<string>,
    auths: seq<AuthProvider>)

  datatype Note = Note(id: Id, title: string, content: string, author: Id, isDeleted: bool)

  datatype Post = Post(id: Id, content: string, author: Id, isDeleted: bool)

  /** `populate("author", "name email")`: the referenced user's id, name and
      email, or None (JSON null) when no user has that id. */
  datatype AuthorRef = AuthorRef(id: Id, name: string, email: string)

  function PopulateAuthor(users: map<Id, User>, author: Id): (r: Option<AuthorRef>)
    ensures r.Some? <==> author in users
    ensures r.Some? ==> r.value == AuthorRef(author, users[author].name, users[author].email)
  {
    if author in users then Some(AuthorRef(author, users[author].name, users[author].email)) else None
  }

  /** The fields a list endpoint's `searchTerm` is matched against: a literal
      list, or the user and note constants of the (not modelled) constant files. */
  datatype SearchFields = Fields(names: seq<string>) | NoteSearchableFields | UserSearchableFields

  /** The base query given to the query builder before its filter, search,
      sort, projection and pagination stages: an optional author filter,
      whether the author is populated, and the searchable fields. */
  datatype BaseQuery = BaseQuery(author: Option<Id>, populateAuthor: bool, search: SearchFields)

  /** Whether a document with this author belongs to the base query's scope. */
  predicate InScope(q: BaseQuery, author: Id) {
    q.author.None? || q.author.value == author
  }
}

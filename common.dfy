/** Shared vocabulary of the server: roles, account states, the verified
    access token, the errors a request can end with, and the ownership rule
    that the note and post services both apply. */
module Common {

  datatype Option<+T> = None | Some(value: T) {
    function GetOr(default: T): T {
      match this
      case Some(v) => v
      case None => default
    }
  }

  /** The outcome of a service call: a value, or the error it threw. */
  datatype Result<+T> = Ok(value: T) | Err(error: Failure)

  /** `Role`, as the string enum of the user interface. */
  datatype Role = SUPER_ADMIN | ADMIN | USER

  /** `IsActive`, as the string enum of the user interface. */
  datatype IsActive = ACTIVE | INACTIVE | BLOCKED

  type Id = string

  /** What a request can fail with: an `ApiError(status, message)` thrown by
      the services, a token the JWT library rejects, or the `TypeError` of
      reading a field of a null reference. */
  datatype Failure =
    | ApiError(status: nat, message: string)
    | InvalidToken
    | NullDereference

  const BAD_REQUEST: nat := 400
  const UNAUTHORIZED: nat := 401
  const FORBIDDEN: nat := 403
  const NOT_FOUND: nat := 404

  /** The verified access token (`JwtPayload`), as `req.user` carries it. */
  datatype Token = Token(userId: Id, email: string, role: Role)

  /** Every role, in the order `Object.values(Role)` lists them. */
  const AllRoles: seq<Role> := [SUPER_ADMIN, ADMIN, USER]

  /** `checkAuth(Role.USER, Role.ADMIN, Role.SUPER_ADMIN)`: the three roles
      written out, as most routes list them. */
  const Everyone: seq<Role> := [USER, ADMIN, SUPER_ADMIN]

  /** `checkAuth(Role.ADMIN, Role.SUPER_ADMIN)`. */
  const Privileged: seq<Role> := [ADMIN, SUPER_ADMIN]

  lemma AllRolesComplete(r: Role)
    ensures r in AllRoles
  {
  }

  predicate IsPrivileged(r: Role) {
    r == ADMIN || r == SUPER_ADMIN
  }

  /** The ownership rule of notes and posts: an ADMIN or SUPER_ADMIN caller,
      or the document's author. */
  predicate MayModify(caller: Token, author: Id) {
    IsPrivileged(caller.role) || author == caller.userId
  }

  /** The two guards every single-document note and post operation runs,
      in this order: the document must exist (NOT_FOUND), then the caller
      must be privileged or its author (FORBIDDEN). `author` is None when
      `findById` found nothing. */
  function OwnershipGuard(author: Option<Id>, caller: Token, notFound: string, forbidden: string): (r: Option<Failure>)
    ensures author.None? ==> r == Some(ApiError(NOT_FOUND, notFound))
    ensures author.Some? ==> (r.None? <==> MayModify(caller, author.value))
    ensures author.Some? && r.Some? ==> r == Some(ApiError(FORBIDDEN, forbidden))
    ensures author.Some? && IsPrivileged(caller.role) ==> r.None?
  {
    if author.None? then
      Some(ApiError(NOT_FOUND, notFound))
    else if caller.role != ADMIN && caller.role != SUPER_ADMIN && author.value != caller.userId then
      Some(ApiError(FORBIDDEN, forbidden))
    else
      None
  }
}

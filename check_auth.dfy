/** The `checkAuth(...authRoles)` middleware: pick the access token (cookie
    first, then the Authorization header), verify it, load the user with the
    token's email, run the account guards in a fixed order, check the
    token's role against the route's roles, and hand the outcome to `next`
    exactly once. */
module CheckAuth {
  import opened Common
  import opened Documents

  /** A JavaScript string value is truthy when present and non-empty. */
  predicate Truthy(s: Option<string>) {
    s.Some? && s.value != ""
  }

  /** The token the middleware goes on with, if any: the cookie's when it is
      truthy, otherwise the Authorization header's when that is truthy. */
  function SelectToken(cookie: Option<string>, header: Option<string>): (r: Option<string>)
    ensures Truthy(cookie) ==> r == cookie
    ensures !Truthy(cookie) ==> r == (if Truthy(header) then header else None)
    ensures r.Some? <==> Truthy(cookie) || Truthy(header)
  {
    var accessToken := cookie;
    if !Truthy(accessToken) && Truthy(header) then header
    else if Truthy(accessToken) then accessToken
    else None
  }

  /** `User.findOne({ email })`: the first user of the collection with that email. */
  function FindUserByEmail(users: seq<User>, email: string): (r: Option<User>)
    ensures r.Some? ==> r.value in users && r.value.email == email
    ensures r.None? <==> forall u :: u in users ==> u.email != email
  {
    if users == [] then None
    else if users[0].email == email then Some(users[0])
    else FindUserByEmail(users[1..], email)
  }

  function ActiveName(a: IsActive): string {
    match a
    case ACTIVE => "ACTIVE"
    case INACTIVE => "INACTIVE"
    case BLOCKED => "BLOCKED"
  }

  /** The stored-account guards, in the order they run: not BLOCKED or
      INACTIVE, not deleted, verified. None when the account passes. */
  function AccountGuard(u: User): (r: Option<Failure>)
    ensures r.None? <==> u.isActive != Some(BLOCKED) && u.isActive != Some(INACTIVE)
                         && u.isDeleted != Some(true) && u.isVerified == Some(true)
    ensures r.Some? ==> r.value.ApiError? && r.value.status == BAD_REQUEST
    // the guards in the order they run; the first that fails decides the message
    ensures u.isActive == Some(BLOCKED) || u.isActive == Some(INACTIVE) ==>
              r == Some(ApiError(BAD_REQUEST, "User is " + ActiveName(u.isActive.value)))
    ensures u.isActive != Some(BLOCKED) && u.isActive != Some(INACTIVE) && u.isDeleted == Some(true) ==>
              r == Some(ApiError(BAD_REQUEST, "User is deleted"))
    ensures u.isActive != Some(BLOCKED) && u.isActive != Some(INACTIVE) && u.isDeleted != Some(true)
            && u.isVerified != Some(true) ==>
              r == Some(ApiError(BAD_REQUEST, "User is not verified!!"))
  {
    if u.isActive == Some(BLOCKED) || u.isActive == Some(INACTIVE) then
      Some(ApiError(BAD_REQUEST, "User is " + ActiveName(u.isActive.value)))
    else if u.isDeleted == Some(true) then
      Some(ApiError(BAD_REQUEST, "User is deleted"))
    else if u.isVerified != Some(true) then
      Some(ApiError(BAD_REQUEST, "User is not verified!!"))
    else
      None
  }

  /** What the middleware decides: the verified token on success, otherwise
      the first guard that failed. `verify` stands for the JWT library, None
      meaning it threw. */
  function AuthDecision(authRoles: seq<Role>, cookie: Option<string>, header: Option<string>,
                        users: seq<User>, verify: string -> Option<Token>): (r: Result<Token>)
    ensures SelectToken(cookie, header).None? ==> r == Err(ApiError(FORBIDDEN, "No Token Received"))
    ensures r.Ok? <==>
              SelectToken(cookie, header).Some?
              && verify(SelectToken(cookie, header).value).Some?
              && var t := verify(SelectToken(cookie, header).value).value;
                 FindUserByEmail(users, t.email).Some?
                 && AccountGuard(FindUserByEmail(users, t.email).value).None?
                 && t.role in authRoles
    ensures r.Ok? ==> Some(r.value) == verify(SelectToken(cookie, header).value)
    // each stage in order: the first that fails decides the error
    ensures SelectToken(cookie, header).Some? && verify(SelectToken(cookie, header).value).None? ==>
              r == Err(InvalidToken)
    ensures SelectToken(cookie, header).Some? && verify(SelectToken(cookie, header).value).Some? ==>
              var t := verify(SelectToken(cookie, header).value).value;
              match FindUserByEmail(users, t.email)
              case None => r == Err(ApiError(BAD_REQUEST, "User does not exist"))
              case Some(u) =>
                if AccountGuard(u).Some? then r == Err(AccountGuard(u).value)
                else if t.role !in authRoles then r == Err(ApiError(FORBIDDEN, "You are not permitted to view this route!!!"))
                else r == Ok(t)
  {
    match SelectToken(cookie, header)
    case None => Err(ApiError(FORBIDDEN, "No Token Received"))
    case Some(accessToken) =>
      match verify(accessToken)
      case None => Err(InvalidToken)
      case Some(t) =>
        match FindUserByEmail(users, t.email)
        case None => Err(ApiError(BAD_REQUEST, "User does not exist"))
        case Some(u) =>
          match AccountGuard(u)
          case Some(e) => Err(e)
          case None =>
            if t.role !in authRoles then Err(ApiError(FORBIDDEN, "You are not permitted to view this route!!!"))
            else Ok(t)
  }

  /** The argument `next` receives: nothing on success, the error otherwise. */
  function NextArgument(r: Result<Token>): Option<Failure> {
    match r
    case Ok(_) => None
    case Err(e) => Some(e)
  }

  /** When the cookie holds a token, the Authorization header has no say. */
  lemma CookieTakesPrecedence(authRoles: seq<Role>, cookie: Option<string>, h1: Option<string>, h2: Option<string>,
                              users: seq<User>, verify: string -> Option<Token>)
    requires Truthy(cookie)
    ensures AuthDecision(authRoles, cookie, h1, users, verify) == AuthDecision(authRoles, cookie, h2, users, verify)
  {
  }

  /** An existing account that fails several guards is refused for the first
      of them: a BLOCKED account is reported as blocked even when it is also
      deleted and unverified. */
  lemma FirstGuardDecides(u: User)
    requires u.isActive == Some(BLOCKED)
    ensures AccountGuard(u) == Some(ApiError(BAD_REQUEST, "User is BLOCKED"))
  {
    assert "User is " + ActiveName(BLOCKED) == "User is BLOCKED";
  }

  lemma {:induction false} FindIgnoresRole(users: seq<User>, i: nat, role: Option<Role>, email: string)
    requires i < |users|
    ensures var r := FindUserByEmail(users[i := users[i].(role := role)], email);
            var s := FindUserByEmail(users, email);
            r.Some? == s.Some? && (r.Some? ==> r.value.(role := s.value.role) == s.value)
  {
    if users[0].email != email && i > 0 {
      assert users[i := users[i].(role := role)][1..] == users[1..][i - 1 := users[i].(role := role)];
      FindIgnoresRole(users[1..], i - 1, role, email);
    }
  }

  /** The route's roles are checked against the role written in the token,
      never against the role stored on the user: changing the stored role of
      any user changes nothing in the decision. */
  lemma StoredRoleIgnored(authRoles: seq<Role>, cookie: Option<string>, header: Option<string>,
                          users: seq<User>, i: nat, role: Option<Role>, verify: string -> Option<Token>)
    requires i < |users|
    ensures AuthDecision(authRoles, cookie, header, users[i := users[i].(role := role)], verify)
            == AuthDecision(authRoles, cookie, header, users, verify)
  {
    var tok := SelectToken(cookie, header);
    if tok.Some? && verify(tok.value).Some? {
      FindIgnoresRole(users, i, role, verify(tok.value).value.email);
    }
  }

  /** The incoming request: the `accessToken` cookie, the Authorization
      header, and `req.user`, which the middleware writes on success. */
  class Request {
    var cookieToken: Option<string>
    var authorization: Option<string>
    var user: Option<Token>

    constructor (cookieToken: Option<string>, authorization: Option<string>)
      ensures this.cookieToken == cookieToken && this.authorization == authorization && user.None?
    {
      this.cookieToken := cookieToken;
      this.authorization := authorization;
      user := None;
    }
  }

  /** Express's `next` callback, recording the argument of every call. */
  class Next {
    var calls: seq<Option<Failure>>

    constructor ()
      ensures calls == []
    {
      calls := [];
    }

    method Call(err: Option<Failure>)
      modifies this
      ensures calls == old(calls) + [err]
    {
      calls := calls + [err];
    }
  }

  /** The middleware itself. Every thrown error is caught and passed to
      `next`, so on every path `next` is called exactly once, with the
      decision's error or with nothing; `req.user` is set only on success. */
  method Run(authRoles: seq<Role>, req: Request, next: Next, users: seq<User>, verify: string -> Option<Token>)
    modifies req`user, next
    ensures next.calls == old(next.calls) + [NextArgument(AuthDecision(authRoles, req.cookieToken, req.authorization, users, verify))]
    ensures var d := AuthDecision(authRoles, req.cookieToken, req.authorization, users, verify);
            req.user == if d.Ok? then Some(d.value) else old(req.user)
  {
    var accessToken := req.cookieToken;
    if !Truthy(accessToken) && Truthy(req.authorization) {
      accessToken := req.authorization;
    }
    if !Truthy(accessToken) {
      next.Call(Some(ApiError(FORBIDDEN, "No Token Received")));
      return;
    }
    var verifiedToken := verify(accessToken.value);
    if verifiedToken.None? {
      next.Call(Some(InvalidToken));
      return;
    }
    var t := verifiedToken.value;
    var isUserExist := FindUserByEmail(users, t.email);
    if isUserExist.None? {
      next.Call(Some(ApiError(BAD_REQUEST, "User does not exist")));
      return;
    }
    var u := isUserExist.value;
    if u.isActive == Some(BLOCKED) || u.isActive == Some(INACTIVE) {
      next.Call(Some(ApiError(BAD_REQUEST, "User is " + ActiveName(u.isActive.value))));
      return;
    }
    if u.isDeleted == Some(true) {
      next.Call(Some(ApiError(BAD_REQUEST, "User is deleted")));
      return;
    }
    if u.isVerified != Some(true) {
      next.Call(Some(ApiError(BAD_REQUEST, "User is not verified!!")));
      return;
    }
    if t.role !in authRoles {
      next.Call(Some(ApiError(FORBIDDEN, "You are not permitted to view this route!!!")));
      return;
    }
    req.user := Some(t);
    next.Call(None);
  }
}

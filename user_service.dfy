/** The user service: registration, the permission cascade of a profile
    update, and the two aggregation pipelines (users grouped by interest,
    a user joined with their posts). */
module UserService {
  import opened Common
  import opened Documents

  // ---------------------------------------------------------------------
  // createUser

  /** The registration payload: email and password are taken apart, the rest
      is spread into the new document after the computed fields, so a given
      `role` or `auths` is stored as given. */
  datatype UserPayload = UserPayload(
    email: string,
    password: string,
    name: string,
    phone: Option<string>,
    picture: Option<string>,
    address: Option<string>,
    role: Option<Role>,
    isActive: Option<IsActive>,
    isDeleted: Option<bool>,
    isVerified: Option<bool>,
    interests: Option<seq<string>>,
    auths: Option<seq<AuthProvider>>)

  predicate EmailTaken(users: map<Id, User>, email: string) {
    exists id :: id in users && users[id].email == email
  }

  /** The document `User.create` receives: the hashed password, a credentials
      provider for the email, then the remaining payload fields. */
  function NewUser(id: Id, p: UserPayload, hash: string -> string): User {
    User(id, p.name, p.email, Some(hash(p.password)), p.phone, p.picture, p.address, p.role, p.isActive, p.isDeleted,
         p.isVerified, p.interests.GetOr([]), p.auths.GetOr([AuthProvider("credentials", p.email)]))
  }

  lemma NewUserShape(id: Id, p: UserPayload, hash: string -> string)
    ensures NewUser(id, p, hash).password == Some(hash(p.password))
    ensures NewUser(id, p, hash).email == p.email
    ensures p.auths.None? ==> NewUser(id, p, hash).auths == [AuthProvider("credentials", p.email)]
    ensures p.auths.Some? ==> NewUser(id, p, hash).auths == p.auths.value
    ensures NewUser(id, p, hash).role == p.role
  {
  }

  // ---------------------------------------------------------------------
  // updateUser

  /** The partial update a PATCH body carries; None is "field not sent". */
  datatype UserPatch = UserPatch(
    name: Option<string>,
    email: Option<string>,
    password: Option<string>,
    phone: Option<string>,
    picture: Option<string>,
    address: Option<string>,
    role: Option<Role>,
    isActive: Option<IsActive>,
    isDeleted: Option<bool>,
    isVerified: Option<bool>,
    interests: Option<seq<string>>,
    auths: Option<seq<AuthProvider>>)

  /** `payload.isActive || payload.isDeleted || payload.isVerified`: every
      IsActive value is a non-empty string, so any set isActive is truthy,
      while the booleans count only when true. */
  predicate StatusFlagsTruthy(p: UserPatch) {
    p.isActive.Some? || p.isDeleted == Some(true) || p.isVerified == Some(true)
  }

  /** `findByIdAndUpdate` with the patch: every sent field replaces the stored one. */
  function ApplyPatch(u: User, p: UserPatch): User {
    u.(name := p.name.GetOr(u.name),
       email := p.email.GetOr(u.email),
       password := if p.password.Some? then p.password else u.password,
       phone := if p.phone.Some? then p.phone else u.phone,
       picture := if p.picture.Some? then p.picture else u.picture,
       address := if p.address.Some? then p.address else u.address,
       role := if p.role.Some? then p.role else u.role,
       isActive := if p.isActive.Some? then p.isActive else u.isActive,
       isDeleted := if p.isDeleted.Some? then p.isDeleted else u.isDeleted,
       isVerified := if p.isVerified.Some? then p.isVerified else u.isVerified,
       interests := p.interests.GetOr(u.interests),
       auths := p.auths.GetOr(u.auths))
  }

  const EmptyPatch := UserPatch(None, None, None, None, None, None, None, None, None, None, None, None)

  /** An update never changes the id; every field the patch sends replaces
      the stored one (the password as sent) and every field it leaves out
      is kept; the empty patch changes nothing, and applying the same patch
      twice is the same as applying it once. */
  lemma ApplyPatchLaws(u: User, p: UserPatch)
    ensures ApplyPatch(u, p).id == u.id
    ensures p.name.Some? ==> ApplyPatch(u, p).name == p.name.value
    ensures p.name.None? ==> ApplyPatch(u, p).name == u.name
    ensures p.email.Some? ==> ApplyPatch(u, p).email == p.email.value
    ensures p.email.None? ==> ApplyPatch(u, p).email == u.email
    ensures p.password.Some? ==> ApplyPatch(u, p).password == p.password
    ensures p.password.None? ==> ApplyPatch(u, p).password == u.password
    ensures p.phone.Some? ==> ApplyPatch(u, p).phone == p.phone
    ensures p.phone.None? ==> ApplyPatch(u, p).phone == u.phone
    ensures p.picture.Some? ==> ApplyPatch(u, p).picture == p.picture
    ensures p.picture.None? ==> ApplyPatch(u, p).picture == u.picture
    ensures p.address.Some? ==> ApplyPatch(u, p).address == p.address
    ensures p.address.None? ==> ApplyPatch(u, p).address == u.address
    ensures p.role.Some? ==> ApplyPatch(u, p).role == p.role
    ensures p.role.None? ==> ApplyPatch(u, p).role == u.role
    ensures p.isActive.Some? ==> ApplyPatch(u, p).isActive == p.isActive
    ensures p.isActive.None? ==> ApplyPatch(u, p).isActive == u.isActive
    ensures p.isDeleted.Some? ==> ApplyPatch(u, p).isDeleted == p.isDeleted
    ensures p.isDeleted.None? ==> ApplyPatch(u, p).isDeleted == u.isDeleted
    ensures p.isVerified.Some? ==> ApplyPatch(u, p).isVerified == p.isVerified
    ensures p.isVerified.None? ==> ApplyPatch(u, p).isVerified == u.isVerified
    ensures p.interests.Some? ==> ApplyPatch(u, p).interests == p.interests.value
    ensures p.interests.None? ==> ApplyPatch(u, p).interests == u.interests
    ensures p.auths.Some? ==> ApplyPatch(u, p).auths == p.auths.value
    ensures p.auths.None? ==> ApplyPatch(u, p).auths == u.auths
    ensures ApplyPatch(u, EmptyPatch) == u
    ensures ApplyPatch(ApplyPatch(u, p), p) == ApplyPatch(u, p)
  {
  }

  /** The ordered guards of `updateUser`; None when the update goes ahead.
      `target` is what `findById(userId)` returned. */
  function UpdateUserGuard(userId: Id, target: Option<User>, p: UserPatch, caller: Token): (r: Option<Failure>)
    // a USER may touch only their own account, and this is checked before the lookup
    ensures caller.role == USER && userId != caller.userId ==>
                  r == Some(ApiError(UNAUTHORIZED, "You are not authorized!"))
    ensures (caller.role != USER || userId == caller.userId) && target.None? ==>
                  r == Some(ApiError(NOT_FOUND, "User Not Found"))
    // an ADMIN can never update a SUPER_ADMIN, whatever the payload
    ensures caller.role == ADMIN && target.Some? && target.value.role == Some(SUPER_ADMIN) ==>
                  r == Some(ApiError(UNAUTHORIZED, "You are not authorized!"))
    // a SUPER_ADMIN is refused only a missing target
    ensures caller.role == SUPER_ADMIN ==> (r.None? <==> target.Some?)
    // what an accepted update implies about the caller, the target and the payload
    ensures r.None? ==> target.Some?
    ensures r.None? && caller.role == USER ==>
                  userId == caller.userId && p.role.None? && !StatusFlagsTruthy(p)
    ensures r.None? && caller.role == ADMIN ==>
                  target.Some? && target.value.role != Some(SUPER_ADMIN)
                  && (p.role.Some? ==> p.role != Some(SUPER_ADMIN)
                                       && target.value.role != Some(ADMIN))
    // a USER is refused a role or a truthy status flag on their own account
    ensures caller.role == USER && userId == caller.userId && target.Some? && (p.role.Some? || StatusFlagsTruthy(p)) ==>
                  r == Some(ApiError(FORBIDDEN, "You are not authorized"))
    ensures caller.role == USER ==>
                  (r.None? <==> userId == caller.userId && target.Some? && p.role.None? && !StatusFlagsTruthy(p))
    // an ADMIN is refused a promotion to SUPER_ADMIN, then any role change of an ADMIN
    ensures caller.role == ADMIN && target.Some? && target.value.role != Some(SUPER_ADMIN) && p.role == Some(SUPER_ADMIN) ==>
                  r == Some(ApiError(FORBIDDEN, "You are not authorized"))
    ensures caller.role == ADMIN && target.Some? && target.value.role == Some(ADMIN)
            && p.role.Some? && p.role != Some(SUPER_ADMIN) ==>
                  r == Some(ApiError(FORBIDDEN, "Admins cannot modify other Admins or Super Admins"))
    // an ADMIN update without a role goes ahead on any target but a SUPER_ADMIN
    ensures caller.role == ADMIN ==>
                  (r.None? <==> target.Some? && target.value.role != Some(SUPER_ADMIN)
                                && (p.role.Some? ==> p.role != Some(SUPER_ADMIN) && target.value.role != Some(ADMIN)))
    ensures r.Some? ==> r.value.ApiError? && r.value.status in {UNAUTHORIZED, NOT_FOUND, FORBIDDEN}
  {
    if caller.role == USER && userId != caller.userId then
      Some(ApiError(UNAUTHORIZED, "You are not authorized!"))
    else if target.None? then
      Some(ApiError(NOT_FOUND, "User Not Found"))
    else if caller.role == ADMIN && target.value.role == Some(SUPER_ADMIN) then
      Some(ApiError(UNAUTHORIZED, "You are not authorized!"))
    else if p.role.Some? && caller.role == USER then
      Some(ApiError(FORBIDDEN, "You are not authorized"))
    else if p.role.Some? && caller.role == ADMIN && p.role == Some(SUPER_ADMIN) then
      Some(ApiError(FORBIDDEN, "You are not authorized"))
    else if p.role.Some? && caller.role == ADMIN
            && (target.value.role == Some(ADMIN) || target.value.role == Some(SUPER_ADMIN)) then
      Some(ApiError(FORBIDDEN, "Admins cannot modify other Admins or Super Admins"))
    else if StatusFlagsTruthy(p) && caller.role == USER then
      Some(ApiError(FORBIDDEN, "You are not authorized"))
    else
      None
  }

  /** Falsy status values never trigger the USER refusal: a USER updating
      their own account with `isDeleted: false` and no role is let through. */
  lemma FalsyFlagsPass(u: User, caller: Token, p: UserPatch)
    requires caller.role == USER && u.id == caller.userId
    requires p.role.None? && p.isActive.None? && p.isDeleted != Some(true) && p.isVerified != Some(true)
    ensures UpdateUserGuard(u.id, Some(u), p, caller).None?
  {
  }

  /** When a role is sent, an ADMIN may set it only to ADMIN or USER, and only
      on a plain USER (or a user without a stored role). */
  lemma AdminRoleChange(userId: Id, u: User, p: UserPatch, caller: Token)
    requires caller.role == ADMIN && p.role.Some?
    ensures UpdateUserGuard(userId, Some(u), p, caller).None? <==>
            p.role.value != SUPER_ADMIN && (u.role == Some(USER) || u.role.None?)
  {
    if UpdateUserGuard(userId, Some(u), p, caller).None? && u.role.Some? {
      assert u.role.value != ADMIN && u.role.value != SUPER_ADMIN;
    }
  }

  // ---------------------------------------------------------------------
  // The user collection

  class UserStore {
    var users: map<Id, User>

    /** Every document is stored under its own id. */
    ghost predicate Valid()
      reads this
    {
      forall id :: id in users ==> users[id].id == id
    }

    constructor ()
      ensures Valid() && users == map[]
    {
      users := map[];
    }

    /** `createUser`: refuses an email already in use and otherwise stores
        the new document under a fresh id. */
    method CreateUser(p: UserPayload, hash: string -> string, freshId: Id) returns (r: Result<User>)
      requires Valid() && freshId !in users
      modifies this
      ensures Valid()
      ensures EmailTaken(old(users), p.email) ==>
                    r == Err(ApiError(BAD_REQUEST, "User Already Exist")) && users == old(users)
      ensures !EmailTaken(old(users), p.email) ==>
                    r == Ok(NewUser(freshId, p, hash)) && users == old(users)[freshId := r.value]
    {
      if exists id :: id in users && users[id].email == p.email {
        return Err(ApiError(BAD_REQUEST, "User Already Exist"));
      }
      var user := NewUser(freshId, p, hash);
      users := users[freshId := user];
      r := Ok(user);
    }

    /** `updateUser`: the guard cascade of UpdateUserGuard, read against the
        stored target; when every guard passes, the patch is applied to that
        one document, which is returned in its new form. */
    method UpdateUser(userId: Id, p: UserPatch, caller: Token) returns (r: Result<User>)
      requires Valid()
      modifies this
      ensures Valid()
      ensures var target := if userId in old(users) then Some(old(users)[userId]) else None;
              match UpdateUserGuard(userId, target, p, caller)
              case Some(e) => r == Err(e) && users == old(users)
              case None => r == Ok(ApplyPatch(old(users)[userId], p))
                           && users == old(users)[userId := r.value]
    {
      if caller.role == USER {
        if userId != caller.userId {
          return Err(ApiError(UNAUTHORIZED, "You are not authorized!"));
        }
      }
      if userId !in users {
        return Err(ApiError(NOT_FOUND, "User Not Found"));
      }
      var existing := users[userId];
      if caller.role == ADMIN && existing.role == Some(SUPER_ADMIN) {
        return Err(ApiError(UNAUTHORIZED, "You are not authorized!"));
      }
      if p.role.Some? {
        if caller.role == USER {
          return Err(ApiError(FORBIDDEN, "You are not authorized"));
        }
        if caller.role == ADMIN {
          if p.role == Some(SUPER_ADMIN) {
            return Err(ApiError(FORBIDDEN, "You are not authorized"));
          }
          if existing.role == Some(ADMIN) || existing.role == Some(SUPER_ADMIN) {
            return Err(ApiError(FORBIDDEN, "Admins cannot modify other Admins or Super Admins"));
          }
        }
      }
      if p.isActive.Some? || p.isDeleted == Some(true) || p.isVerified == Some(true) {
        if caller.role == USER {
          return Err(ApiError(FORBIDDEN, "You are not authorized"));
        }
      }
      var updated := ApplyPatch(existing, p);
      users := users[userId := updated];
      r := Ok(updated);
    }
  }

  // ---------------------------------------------------------------------
  // getUsersByInterests: $unwind interests, then $group by interest

  /** What `$push` records of each user: `{ name, email, _id }`. */
  datatype Member = Member(name: string, email: string, id: Id)

  /** One output document of the `$group` stage. */
  datatype InterestGroup = InterestGroup(interest: string, users: seq<Member>, count: nat)

  /** `$unwind: "$interests"`: one (interest, member) entry per interest of
      every user, in collection order; a user without interests yields none. */
  function Unwind(users: seq<User>): (r: seq<(string, Member)>)
  {
    if users == [] then []
    else
      var u := users[|users| - 1];
      Unwind(users[..|users| - 1]) + seq(|u.interests|, i requires 0 <= i < |u.interests| => (u.interests[i], Member(u.name, u.email, u.id)))
  }

  /** The total number of interest entries over all users. */
  function InterestCount(users: seq<User>): nat
  {
    if users == [] then 0 else InterestCount(users[..|users| - 1]) + |users[|users| - 1].interests|
  }

  lemma {:induction false} UnwindLength(users: seq<User>)
    ensures |Unwind(users)| == InterestCount(users)
  {
    if users != [] {
      UnwindLength(users[..|users| - 1]);
    }
  }

  /** The members of the entries with interest k, in entry order: the
      reference definition of one group's `users` list. */
  function MembersWith(entries: seq<(string, Member)>, k: string): seq<Member>
  {
    if entries == [] then []
    else
      var last := entries[|entries| - 1];
      MembersWith(entries[..|entries| - 1], k) + (if last.0 == k then [last.1] else [])
  }

  predicate DistinctInterests(gs: seq<InterestGroup>) {
    forall i, j :: 0 <= i < j < |gs| ==> gs[i].interest != gs[j].interest
  }

  /** The index of the group for interest k, if there is one. */
  function FindGroup(gs: seq<InterestGroup>, k: string): (r: Option<nat>)
    ensures r.Some? ==> r.value < |gs| && gs[r.value].interest == k
    ensures r.None? ==> forall i :: 0 <= i < |gs| ==> gs[i].interest != k
  {
    if gs == [] then None
    else if gs[|gs| - 1].interest == k then Some(|gs| - 1)
    else FindGroup(gs[..|gs| - 1], k)
  }

  /** One accumulator step of `$group`: `$push` the member onto its
      interest's group and `$sum: 1` its count, opening the group on first sight. */
  function Accumulate(gs: seq<InterestGroup>, e: (string, Member)): seq<InterestGroup>
  {
    match FindGroup(gs, e.0)
    case Some(i) => gs[i := gs[i].(users := gs[i].users + [e.1], count := gs[i].count + 1)]
    case None => gs + [InterestGroup(e.0, [e.1], 1)]
  }

  /** The `$group` stage over the unwound entries, groups in order of first
      appearance: one group per distinct interest, holding exactly the
      members with that interest, its count equal to their number. */
  function Group(entries: seq<(string, Member)>): (r: seq<InterestGroup>)
    ensures DistinctInterests(r)
    ensures forall i :: 0 <= i < |r| ==>
              r[i].users == MembersWith(entries, r[i].interest) && r[i].count == |r[i].users| && r[i].users != []
    ensures forall e :: e in entries ==> exists i :: 0 <= i < |r| && r[i].interest == e.0
  {
    if entries == [] then []
    else
      var prefix := entries[..|entries| - 1];
      var e := entries[|entries| - 1];
      assert entries == prefix + [e];
      var gs := Group(prefix);
      AccumulateStep(prefix, gs, e);
      Accumulate(gs, e)
  }

  lemma {:induction false} MembersWithAbsent(entries: seq<(string, Member)>, k: string)
    requires forall x :: x in entries ==> x.0 != k
    ensures MembersWith(entries, k) == []
  {
    if entries != [] {
      MembersWithAbsent(entries[..|entries| - 1], k);
    }
  }

  /** Accumulating one more entry onto groups that are correct for a prefix
      gives groups that are correct for the prefix extended by that entry. */
  lemma AccumulateStep(prefix: seq<(string, Member)>, gs: seq<InterestGroup>, e: (string, Member))
    requires DistinctInterests(gs)
    requires forall i :: 0 <= i < |gs| ==>
               gs[i].users == MembersWith(prefix, gs[i].interest) && gs[i].count == |gs[i].users| && gs[i].users != []
    requires forall x :: x in prefix ==> exists i :: 0 <= i < |gs| && gs[i].interest == x.0
    ensures var r := Accumulate(gs, e);
            && DistinctInterests(r)
            && (forall i :: 0 <= i < |r| ==>
                  r[i].users == MembersWith(prefix + [e], r[i].interest) && r[i].count == |r[i].users| && r[i].users != [])
            && (forall x :: x in prefix + [e] ==> exists i :: 0 <= i < |r| && r[i].interest == x.0)
  {
    var entries := prefix + [e];
    assert entries[..|entries| - 1] == prefix;
    var r := Accumulate(gs, e);
    forall k ensures MembersWith(entries, k) == MembersWith(prefix, k) + (if e.0 == k then [e.1] else []) {
    }
    match FindGroup(gs, e.0)
    case Some(j) =>
      assert |r| == |gs|;
      forall i | 0 <= i < |r|
        ensures r[i].users == MembersWith(entries, r[i].interest) && r[i].count == |r[i].users| && r[i].users != []
      {
        if i != j {
          assert r[i] == gs[i] && gs[i].interest != e.0;
        }
      }
      forall x | x in entries ensures exists i :: 0 <= i < |r| && r[i].interest == x.0 {
        if x in prefix {
          var i :| 0 <= i < |gs| && gs[i].interest == x.0;
          assert r[i].interest == x.0;
        } else {
          assert r[j].interest == x.0;
        }
      }
    case None =>
      assert forall x :: x in prefix ==> x.0 != e.0;
      MembersWithAbsent(prefix, e.0);
      forall i | 0 <= i < |r|
        ensures r[i].users == MembersWith(entries, r[i].interest) && r[i].count == |r[i].users| && r[i].users != []
      {
        if i < |gs| {
          assert r[i] == gs[i] && gs[i].interest != e.0;
        }
      }
      forall x | x in entries ensures exists i :: 0 <= i < |r| && r[i].interest == x.0 {
        if x in prefix {
          var i :| 0 <= i < |gs| && gs[i].interest == x.0;
          assert r[i].interest == x.0;
        } else {
          assert r[|gs|].interest == x.0;
        }
      }
  }

  function GetUsersByInterests(users: seq<User>): seq<InterestGroup>
  {
    Group(Unwind(users))
  }

  function SumCounts(gs: seq<InterestGroup>): nat
  {
    if gs == [] then 0 else SumCounts(gs[..|gs| - 1]) + gs[|gs| - 1].count
  }

  lemma {:induction false} SumCountsUpdate(gs: seq<InterestGroup>, i: nat, g: InterestGroup)
    requires i < |gs|
    ensures SumCounts(gs[i := g]) == SumCounts(gs) - gs[i].count + g.count
  {
    var n := |gs| - 1;
    if i < n {
      assert gs[i := g][..n] == gs[..n][i := g];
      SumCountsUpdate(gs[..n], i, g);
    } else {
      assert gs[i := g][..n] == gs[..n];
    }
  }

  lemma {:induction false} GroupCountsSum(entries: seq<(string, Member)>)
    ensures SumCounts(Group(entries)) == |entries|
  {
    if entries != [] {
      var prefix := entries[..|entries| - 1];
      var e := entries[|entries| - 1];
      GroupCountsSum(prefix);
      var gs := Group(prefix);
      match FindGroup(gs, e.0)
      case Some(i) =>
        SumCountsUpdate(gs, i, gs[i].(users := gs[i].users + [e.1], count := gs[i].count + 1));
      case None =>
        assert (gs + [InterestGroup(e.0, [e.1], 1)])[..|gs|] == gs;
    }
  }

  /** The group counts add up to the number of interest entries over all
      users, and every interest of every user has its group. */
  lemma UsersByInterestsTotals(users: seq<User>)
    ensures SumCounts(GetUsersByInterests(users)) == InterestCount(users)
    ensures forall k, u :: u in users && k in u.interests ==>
              exists i :: 0 <= i < |GetUsersByInterests(users)| && GetUsersByInterests(users)[i].interest == k
  {
    GroupCountsSum(Unwind(users));
    UnwindLength(users);
    forall k, u | u in users && k in u.interests
      ensures exists i :: 0 <= i < |GetUsersByInterests(users)| && GetUsersByInterests(users)[i].interest == k
    {
      UnwindHas(users, u, k);
      var entries := Unwind(users);
      assert (k, Member(u.name, u.email, u.id)) in entries;
      var i :| 0 <= i < |Group(entries)| && Group(entries)[i].interest == k;
      assert GetUsersByInterests(users)[i].interest == k;
    }
  }

  lemma {:induction false} UnwindHas(users: seq<User>, u: User, k: string)
    requires u in users && k in u.interests
    ensures (k, Member(u.name, u.email, u.id)) in Unwind(users)
  {
    var last := users[|users| - 1];
    var tail := seq(|last.interests|, i requires 0 <= i < |last.interests| => (last.interests[i], Member(last.name, last.email, last.id)));
    if u == last {
      var j :| 0 <= j < |u.interests| && u.interests[j] == k;
      assert tail[j] == (k, Member(u.name, u.email, u.id));
    } else {
      assert u in users[..|users| - 1] by {
        var j :| 0 <= j < |users| && users[j] == u;
        assert j < |users| - 1;
        assert users[..|users| - 1][j] == u;
      }
      UnwindHas(users[..|users| - 1], u, k);
    }
  }

  // ---------------------------------------------------------------------
  // getUserPosts: $match the user, $lookup posts by author, $project

  /** The projected document: `_id`, name, email and the joined posts. */
  datatype UserPosts = UserPosts(id: Id, name: string, email: string, posts: seq<Post>)

  /** `$lookup` with localField `_id` and foreignField `author`: the posts
      written by the user, in collection order. */
  function PostsBy(posts: seq<Post>, userId: Id): (r: seq<Post>)
    ensures forall p :: p in r <==> p in posts && p.author == userId
    ensures |r| <= |posts|
  {
    if posts == [] then []
    else PostsBy(posts[..|posts| - 1], userId)
         + (if posts[|posts| - 1].author == userId then [posts[|posts| - 1]] else [])
  }

  /** `findById(id).select("-password")`, behind `getSingleUser` and, with the
      caller's own id from the token, `getMe`: the stored user with every field
      but the password, or null when no user has the id. */
  function ProfileOf(users: map<Id, User>, id: Id): (r: Option<User>)
    ensures r.Some? <==> id in users
    ensures r.Some? ==> r.value.password.None? && r.value.(password := users[id].password) == users[id]
  {
    if id in users then Some(users[id].(password := None)) else None
  }

  /** `result[0]` of the pipeline: the first user with this id joined with
      their posts, or nothing when no user matches. */
  function GetUserPosts(users: seq<User>, posts: seq<Post>, userId: Id): (r: Option<UserPosts>)
    ensures r.None? <==> forall u :: u in users ==> u.id != userId
    ensures r.Some? ==> r.value.id == userId
                        && (exists u :: u in users && u.id == userId
                                        && r.value.name == u.name && r.value.email == u.email)
                        && (forall p :: p in r.value.posts <==> p in posts && p.author == userId)
  {
    if users == [] then None
    else if users[0].id == userId then
      Some(UserPosts(userId, users[0].name, users[0].email, PostsBy(posts, userId)))
    else
      GetUserPosts(users[1..], posts, userId)
  }
}

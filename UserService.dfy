/** `UserService`: the start-up test administrator, registration with
    unique username and email, lookup, and the administrator-only
    deletion, promotion and demotion with the last-administrator rule.

    `UserRole` and `User.Role` are the same two values here (`Role`). The
    creation time of a saved user is the parameter `now`. */
module UserService {
  import opened Common
  import opened Domain

  const TestUserId := "test_11111111-1111-1111-1111-111111111111"

  /** `UserDto`. */
  datatype UserDto = UserDto(userId: string, username: string, email: string, role: Role, createdAt: Time)

  /** `CreateUserRequest`. */
  datatype CreateUserRequest = CreateUserRequest(userId: string, username: string, email: string)

  /** `toDto`: every field of the user, copied. */
  function ToDto(user: User): (r: UserDto)
    ensures r.userId == user.userId && r.username == user.username && r.email == user.email
    ensures r.role == user.role && r.createdAt == user.createdAt
  {
    UserDto(user.userId, user.username, user.email, user.role, user.createdAt)
  }

  /** The test administrator `init` saves. */
  function TestUser(now: Time): User
  {
    User(TestUserId, "Test User", "test@example.com", Admin, now)
  }

  /** `init`: the test administrator is saved only when its id is absent. */
  function InitSpec(db: Db, now: Time): (r: Db)
    ensures TestUserId in r.users
    ensures TestUserId !in db.users ==> r.users[TestUserId].role == Admin
    ensures TestUserId in db.users ==> r == db
    ensures r == db.(users := r.users)
    ensures forall k :: k in db.users ==> k in r.users && r.users[k] == db.users[k]
  {
    if TestUserId in db.users then db else db.(users := db.users[TestUserId := TestUser(now)])
  }

  method Init(store: Store, now: Time)
    modifies store
    ensures store.State() == InitSpec(old(store.State()), now)
  {
    if TestUserId !in store.users {
      store.SaveUser(TestUser(now));
    }
  }

  /** Running `init` again, at any time, changes nothing. */
  lemma InitIdempotent(db: Db, now: Time, later: Time)
    ensures InitSpec(InitSpec(db, now), later) == InitSpec(db, now)
  {
  }

  predicate UsernameTaken(users: map<string, User>, username: string)
  {
    exists k :: k in users && users[k].username == username
  }

  predicate EmailTaken(users: map<string, User>, email: string)
  {
    exists k :: k in users && users[k].email == email
  }

  /** No two stored users share a username, nor an email. */
  predicate NamesUnique(users: map<string, User>)
  {
    forall a, b :: a in users && b in users && a != b ==>
      users[a].username != users[b].username && users[a].email != users[b].email
  }

  /** `createUser`: a taken username, then a taken email, is refused; the
      new user is a regular user. The save is keyed by the requested id, so
      a stored user with that id is replaced. */
  function CreateUserSpec(db: Db, request: CreateUserRequest, now: Time): (o: Outcome<UserDto>)
    ensures o.result.Err? ==> o.db == db
    ensures UsernameTaken(db.users, request.username) ==>
      o.result == Err(Error(IllegalArgument, "Username already exists"))
    ensures !UsernameTaken(db.users, request.username) && EmailTaken(db.users, request.email) ==>
      o.result == Err(Error(IllegalArgument, "Email already exists"))
    ensures o.result.Ok? <==> !UsernameTaken(db.users, request.username) && !EmailTaken(db.users, request.email)
    ensures o.result.Ok? ==>
      o.db == db.(users := db.users[request.userId := User(request.userId, request.username, request.email, Regular, now)])
      && o.result.value == UserDto(request.userId, request.username, request.email, Regular, now)
  {
    if UsernameTaken(db.users, request.username) then Fail(db, IllegalArgument, "Username already exists")
    else if EmailTaken(db.users, request.email) then Fail(db, IllegalArgument, "Email already exists")
    else
      var user := User(request.userId, request.username, request.email, Regular, now);
      Outcome(Ok(ToDto(user)), db.(users := db.users[user.userId := user]))
  }

  method CreateUser(store: Store, request: CreateUserRequest, now: Time) returns (r: Result<UserDto, Error>)
    modifies store
    ensures r == CreateUserSpec(old(store.State()), request, now).result
    ensures store.State() == CreateUserSpec(old(store.State()), request, now).db
  {
    if UsernameTaken(store.users, request.username) {
      return Err(Error(IllegalArgument, "Username already exists"));
    }
    if EmailTaken(store.users, request.email) {
      return Err(Error(IllegalArgument, "Email already exists"));
    }
    var user := User(request.userId, request.username, request.email, Regular, now);
    store.SaveUser(user);
    r := Ok(ToDto(user));
  }

  /** The two checks keep usernames and emails unique, even when the save
      replaces a user stored under the same id. */
  lemma CreateKeepsNamesUnique(db: Db, request: CreateUserRequest, now: Time)
    requires NamesUnique(db.users)
    ensures NamesUnique(CreateUserSpec(db, request, now).db.users)
  {
    var after := CreateUserSpec(db, request, now).db.users;
    if CreateUserSpec(db, request, now).result.Ok? {
      forall a, b | a in after && b in after && a != b
        ensures after[a].username != after[b].username && after[a].email != after[b].email
      {
        if a == request.userId {
          assert b in db.users && after[b] == db.users[b];
        } else if b == request.userId {
          assert a in db.users && after[a] == db.users[a];
        } else {
          assert a in db.users && b in db.users;
        }
      }
    }
  }

  /** `getUser`. */
  function GetUser(db: Db, userId: string): (r: Result<UserDto, Error>)
    ensures r.Err? <==> userId !in db.users
    ensures r.Err? ==> r.error == Error(EntityNotFound, "User not found")
    ensures r.Ok? ==> r.value == ToDto(db.users[userId])
  {
    if userId in db.users then Ok(ToDto(db.users[userId])) else Err(Error(EntityNotFound, "User not found"))
  }

  /** `getAllUsers` over the page the repository returns. */
  function GetAllUsers(page: seq<User>): (r: seq<UserDto>)
    ensures |r| == |page|
    ensures forall i :: 0 <= i < |r| ==> r[i] == ToDto(page[i])
  {
    seq(|page|, i requires 0 <= i < |page| => ToDto(page[i]))
  }

  /** The administrator check the three management calls share. */
  function RequireAdmin(db: Db, requesterId: string, denied: string): (r: Option<Error>)
    ensures r.None? <==> requesterId in db.users && db.users[requesterId].role == Admin
    ensures requesterId !in db.users ==> r == Some(Error(EntityNotFound, "Requester not found"))
    ensures requesterId in db.users && db.users[requesterId].role != Admin ==> r == Some(Error(AccessDenied, denied))
  {
    if requesterId !in db.users then Some(Error(EntityNotFound, "Requester not found"))
    else if db.users[requesterId].role != Admin then Some(Error(AccessDenied, denied))
    else None
  }

  /** `deleteUser`: an administrator deletes the id; a missing id is
      silently ignored by `deleteById`. */
  function DeleteUserSpec(db: Db, userId: string, requesterId: string): (o: Outcome<()>)
    ensures o.result.Err? ==> o.db == db
    ensures o.result.Ok? <==> requesterId in db.users && db.users[requesterId].role == Admin
    ensures o.result.Err? ==> Some(o.result.error) == RequireAdmin(db, requesterId, "Only admin can delete users")
    ensures o.result.Ok? ==> o.db == db.(users := db.users - {userId})
  {
    var denied := RequireAdmin(db, requesterId, "Only admin can delete users");
    if denied.Some? then Outcome(Err(denied.value), db)
    else Outcome(Ok(()), db.(users := db.users - {userId}))
  }

  method DeleteUser(store: Store, userId: string, requesterId: string) returns (r: Result<(), Error>)
    modifies store
    ensures r == DeleteUserSpec(old(store.State()), userId, requesterId).result
    ensures store.State() == DeleteUserSpec(old(store.State()), userId, requesterId).db
  {
    var denied := RequireAdmin(store.State(), requesterId, "Only admin can delete users");
    if denied.Some? {
      return Err(denied.value);
    }
    store.DeleteUser(userId);
    r := Ok(());
  }

  /** The ids of the administrators. */
  function Admins(users: map<string, User>): set<string>
  {
    set k | k in users && users[k].role == Admin
  }

  /** `promoteToAdmin`. The save is keyed by the loaded user's own id. */
  function PromoteSpec(db: Db, userId: string, requesterId: string): (o: Outcome<()>)
    ensures o.result.Err? ==> o.db == db
    ensures o.result.Ok? <==> requesterId in db.users && db.users[requesterId].role == Admin && userId in db.users
    ensures requesterId in db.users && db.users[requesterId].role == Admin && userId !in db.users ==>
      o.result == Err(Error(EntityNotFound, "User not found"))
    ensures RequireAdmin(db, requesterId, "Only admin can promote users").Some? ==>
      Some(o.result.error) == RequireAdmin(db, requesterId, "Only admin can promote users")
    ensures o.result.Ok? ==> o.db == db.(users := db.users[db.users[userId].userId := db.users[userId].(role := Admin)])
  {
    var denied := RequireAdmin(db, requesterId, "Only admin can promote users");
    if denied.Some? then Outcome(Err(denied.value), db)
    else if userId !in db.users then Fail(db, EntityNotFound, "User not found")
    else Outcome(Ok(()), db.(users := db.users[db.users[userId].userId := db.users[userId].(role := Admin)]))
  }

  method Promote(store: Store, userId: string, requesterId: string) returns (r: Result<(), Error>)
    modifies store
    ensures r == PromoteSpec(old(store.State()), userId, requesterId).result
    ensures store.State() == PromoteSpec(old(store.State()), userId, requesterId).db
  {
    var denied := RequireAdmin(store.State(), requesterId, "Only admin can promote users");
    if denied.Some? {
      return Err(denied.value);
    }
    if userId !in store.users {
      return Err(Error(EntityNotFound, "User not found"));
    }
    store.SaveUser(store.users[userId].(role := Admin));
    r := Ok(());
  }

  /** `demoteToUser`: as promotion, but the only administrator cannot be
      demoted. */
  function DemoteSpec(db: Db, userId: string, requesterId: string): (o: Outcome<()>)
    ensures o.result.Err? ==> o.db == db
    ensures o.result.Ok? <==>
      requesterId in db.users && db.users[requesterId].role == Admin && userId in db.users
      && !(|Admins(db.users)| == 1 && db.users[userId].role == Admin)
    ensures requesterId in db.users && db.users[requesterId].role == Admin && userId in db.users
            && |Admins(db.users)| == 1 && db.users[userId].role == Admin
      ==> o.result == Err(Error(IllegalState, "Cannot demote last admin"))
    ensures RequireAdmin(db, requesterId, "Only admin can demote users").Some? ==>
      Some(o.result.error) == RequireAdmin(db, requesterId, "Only admin can demote users")
    ensures o.result.Ok? ==> o.db == db.(users := db.users[db.users[userId].userId := db.users[userId].(role := Regular)])
  {
    var denied := RequireAdmin(db, requesterId, "Only admin can demote users");
    if denied.Some? then Outcome(Err(denied.value), db)
    else if userId !in db.users then Fail(db, EntityNotFound, "User not found")
    else if |Admins(db.users)| == 1 && db.users[userId].role == Admin then
      Fail(db, IllegalState, "Cannot demote last admin")
    else Outcome(Ok(()), db.(users := db.users[db.users[userId].userId := db.users[userId].(role := Regular)]))
  }

  method Demote(store: Store, userId: string, requesterId: string) returns (r: Result<(), Error>)
    modifies store
    ensures r == DemoteSpec(old(store.State()), userId, requesterId).result
    ensures store.State() == DemoteSpec(old(store.State()), userId, requesterId).db
  {
    var denied := RequireAdmin(store.State(), requesterId, "Only admin can demote users");
    if denied.Some? {
      return Err(denied.value);
    }
    if userId !in store.users {
      return Err(Error(EntityNotFound, "User not found"));
    }
    var user := store.users[userId];
    if |Admins(store.users)| == 1 && user.role == Admin {
      return Err(Error(IllegalState, "Cannot demote last admin"));
    }
    store.SaveUser(user.(role := Regular));
    r := Ok(());
  }

  /** A demotion always leaves an administrator: the requester is one, and
      the only one is never demoted. */
  lemma DemoteKeepsAnAdmin(db: Db, userId: string, requesterId: string)
    requires Valid(db)
    requires DemoteSpec(db, userId, requesterId).result.Ok?
    ensures |Admins(DemoteSpec(db, userId, requesterId).db.users)| >= 1
  {
    var after := DemoteSpec(db, userId, requesterId).db.users;
    assert requesterId in Admins(db.users);
    assert Admins(after) == Admins(db.users) - {userId};
    if userId in Admins(db.users) {
      assert |Admins(db.users)| >= 2 by {
        assert {requesterId} <= Admins(db.users);
      }
      assert |Admins(after)| == |Admins(db.users)| - 1;
    } else {
      assert Admins(after) == Admins(db.users);
    }
  }

  /** Deletion has no last-administrator rule: the only administrator may
      delete themself, leaving none. */
  lemma DeleteMayRemoveLastAdmin(now: Time)
    ensures var admin := User("a", "admin", "admin@example.com", Admin, now);
      var db := EmptyDb.(users := map["a" := admin]);
      DeleteUserSpec(db, "a", "a").result.Ok? && |Admins(db.users)| == 1
      && Admins(DeleteUserSpec(db, "a", "a").db.users) == {}
  {
    var admin := User("a", "admin", "admin@example.com", Admin, now);
    var db := EmptyDb.(users := map["a" := admin]);
    assert Admins(db.users) == {"a"};
  }

  /** Promotion and demotion change only the role of one user. */
  lemma RoleChangesTouchOnlyTheRole(db: Db, userId: string, requesterId: string)
    requires Valid(db)
    ensures PromoteSpec(db, userId, requesterId).result.Ok? ==>
      var after := PromoteSpec(db, userId, requesterId).db.users;
      after.Keys == db.users.Keys && after[userId].role == Admin
      && after[userId].(role := db.users[userId].role) == db.users[userId]
    ensures DemoteSpec(db, userId, requesterId).result.Ok? ==>
      var after := DemoteSpec(db, userId, requesterId).db.users;
      after.Keys == db.users.Keys && after[userId].role == Regular
      && after[userId].(role := db.users[userId].role) == db.users[userId]
  {
  }
}

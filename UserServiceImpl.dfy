/** `UserServiceImpl`: registration keyed by an externally issued id (the
    identity provider's user id), deletion, and the lookups by id. */
module UserServiceImpl {
  import opened Common
  import opened Domain
  import UserService

  /** `UserDTO`: the same five fields as `UserDto`. */
  type UserDto = UserService.UserDto

  /** `createUser`: an existing id, then an email in use, then a taken
      username is refused, in that order; the new user is a regular user. */
  function CreateUserSpec(db: Db, userId: string, email: string, username: string, now: Time)
    : (o: Outcome<UserDto>)
    ensures o.result.Err? ==> o.db == db
    ensures userId in db.users ==> o.result == Err(Error(IllegalState, "User already exists with ID: " + userId))
    ensures userId !in db.users && UserService.EmailTaken(db.users, email) ==>
      o.result == Err(Error(IllegalState, "Email already in use: " + email))
    ensures userId !in db.users && !UserService.EmailTaken(db.users, email)
            && UserService.UsernameTaken(db.users, username)
      ==> o.result == Err(Error(IllegalState, "Username already taken: " + username))
    ensures o.result.Ok? <==>
      userId !in db.users && !UserService.EmailTaken(db.users, email) && !UserService.UsernameTaken(db.users, username)
    ensures o.result.Ok? ==>
      o.db == db.(users := db.users[userId := User(userId, username, email, Regular, now)])
      && o.result.value == UserService.UserDto(userId, username, email, Regular, now)
  {
    if userId in db.users then Fail(db, IllegalState, "User already exists with ID: " + userId)
    else if UserService.EmailTaken(db.users, email) then Fail(db, IllegalState, "Email already in use: " + email)
    else if UserService.UsernameTaken(db.users, username) then
      Fail(db, IllegalState, "Username already taken: " + username)
    else
      var user := User(userId, username, email, Regular, now);
      Outcome(Ok(UserService.ToDto(user)), db.(users := db.users[userId := user]))
  }

  method CreateUser(store: Store, userId: string, email: string, username: string, now: Time)
    returns (r: Result<UserDto, Error>)
    modifies store
    ensures r == CreateUserSpec(old(store.State()), userId, email, username, now).result
    ensures store.State() == CreateUserSpec(old(store.State()), userId, email, username, now).db
  {
    if userId in store.users {
      return Err(Error(IllegalState, "User already exists with ID: " + userId));
    }
    if UserService.EmailTaken(store.users, email) {
      return Err(Error(IllegalState, "Email already in use: " + email));
    }
    if UserService.UsernameTaken(store.users, username) {
      return Err(Error(IllegalState, "Username already taken: " + username));
    }
    var user := User(userId, username, email, Regular, now);
    store.SaveUser(user);
    r := Ok(UserService.ToDto(user));
  }

  /** A successful creation adds exactly one user and keeps `Valid`;
      unlike `UserService.createUser` it never replaces a stored user. */
  lemma CreateAddsOneUser(db: Db, userId: string, email: string, username: string, now: Time)
    requires Valid(db)
    requires CreateUserSpec(db, userId, email, username, now).result.Ok?
    ensures var after := CreateUserSpec(db, userId, email, username, now).db;
      after.users.Keys == db.users.Keys + {userId} && |after.users| == |db.users| + 1
      && (forall k :: k in db.users ==> after.users[k] == db.users[k])
      && Valid(after)
  {
    InsertUserKeepsValid(db, User(userId, username, email, Regular, now));
  }

  /** Saving a user under a new id adds exactly that row and keeps the
      tables consistent. */
  lemma InsertUserKeepsValid(db: Db, user: User)
    requires Valid(db) && user.userId !in db.users
    ensures var after := db.(users := db.users[user.userId := user]);
      after.users.Keys == db.users.Keys + {user.userId} && |after.users| == |db.users| + 1 && Valid(after)
  {
    InsertNewKey(db.users, user);
    var after := db.(users := db.users[user.userId := user]);
    assert Valid(after) by {
      assert forall k :: k in after.users ==> after.users[k].userId == k;
    }
  }

  lemma InsertNewKey(users: map<string, User>, user: User)
    requires user.userId !in users
    ensures users[user.userId := user].Keys == users.Keys + {user.userId}
    ensures |users[user.userId := user]| == |users| + 1
  {
  }

  /** The three checks keep usernames and emails unique. */
  lemma CreateKeepsNamesUnique(db: Db, userId: string, email: string, username: string, now: Time)
    requires UserService.NamesUnique(db.users)
    ensures UserService.NamesUnique(CreateUserSpec(db, userId, email, username, now).db.users)
  {
    if CreateUserSpec(db, userId, email, username, now).result.Ok? {
      InsertKeepsNamesUnique(db.users, userId, email, username, now);
    }
  }

  lemma InsertKeepsNamesUnique(users: map<string, User>, userId: string, email: string, username: string, now: Time)
    requires UserService.NamesUnique(users)
    requires !UserService.EmailTaken(users, email) && !UserService.UsernameTaken(users, username)
    ensures UserService.NamesUnique(users[userId := User(userId, username, email, Regular, now)])
  {
    var after := users[userId := User(userId, username, email, Regular, now)];
    forall a, b | a in after && b in after && a != b
      ensures after[a].username != after[b].username && after[a].email != after[b].email
    {
      if a == userId {
        assert b in users && after[b] == users[b];
      } else if b == userId {
        assert a in users && after[a] == users[a];
      } else {
        assert a in users && b in users;
      }
    }
  }

  /** `deleteUser`: a missing id is refused; otherwise that id alone goes. */
  function DeleteUserSpec(db: Db, userId: string): (o: Outcome<()>)
    ensures o.result.Err? <==> userId !in db.users
    ensures o.result.Err? ==> o.db == db && o.result.error == Error(EntityNotFound, "User not found with ID: " + userId)
    ensures o.result.Ok? ==>
      o.db == db.(users := o.db.users) && o.db.users.Keys == db.users.Keys - {userId}
      && forall k :: k in o.db.users ==> o.db.users[k] == db.users[k]
  {
    if userId !in db.users then Fail(db, EntityNotFound, "User not found with ID: " + userId)
    else Outcome(Ok(()), db.(users := db.users - {userId}))
  }

  method DeleteUser(store: Store, userId: string) returns (r: Result<(), Error>)
    modifies store
    ensures r == DeleteUserSpec(old(store.State()), userId).result
    ensures store.State() == DeleteUserSpec(old(store.State()), userId).db
  {
    if userId !in store.users {
      return Err(Error(EntityNotFound, "User not found with ID: " + userId));
    }
    store.DeleteUser(userId);
    r := Ok(());
  }

  /** Creating and then deleting a user gives the store back. */
  lemma CreateThenDeleteRestores(db: Db, userId: string, email: string, username: string, now: Time)
    requires CreateUserSpec(db, userId, email, username, now).result.Ok?
    ensures DeleteUserSpec(CreateUserSpec(db, userId, email, username, now).db, userId).db == db
  {
    var after := DeleteUserSpec(CreateUserSpec(db, userId, email, username, now).db, userId).db;
    assert after.users == db.users;
  }

  /** `userExists`. */
  function UserExists(db: Db, userId: string): (r: bool)
    ensures r <==> DeleteUserSpec(db, userId).result.Ok?
  {
    userId in db.users
  }

  /** `findById`. */
  function FindById(db: Db, userId: string): (r: Option<UserDto>)
    ensures r.Some? <==> UserExists(db, userId)
    ensures r.Some? ==> r.value == UserService.GetUser(db, userId).value
  {
    if userId in db.users then Some(UserService.ToDto(db.users[userId])) else None
  }
}

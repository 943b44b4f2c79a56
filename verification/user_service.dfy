/** User lookups, presence updates and the unique username. */
module UserService {
  import opened Common
  import opened Store
  import opened Query

  /** The `username` column is unique: no two users carry the same name. */
  ghost predicate UniqueUsernames(users: map<UserId, User>)
  {
    forall a, b :: a in users && b in users && a != b && users[a].username.Some? ==> users[a].username != users[b].username
  }

  /** isUsernameAvailable: `findUnique({ where: { username } })` finds nobody. */
  predicate UsernameAvailable(users: map<UserId, User>, username: string)
  {
    forall u :: u in users ==> users[u].username != Some(username)
  }

  /** The `where` of searchUser: the query equals the user's username or the user's id. */
  predicate SearchHit(users: map<UserId, User>, query: string, u: UserId)
  {
    u in users && (users[u].username == Some(query) || u == query)
  }

  /** updateOnlineStatus: online clears `lastSeen`, offline stamps it with the current time. */
  function SetOnline(users: map<UserId, User>, userId: UserId, isOnline: bool, now: int): (out: (Result<()>, map<UserId, User>))
    ensures out.0.Ok? <==> userId in users
    ensures out.0.Err? ==> out.1 == users
    ensures out.0.Ok? ==> out.1.Keys == users.Keys && out.1[userId].isOnline == isOnline
    ensures out.0.Ok? ==> (out.1[userId].lastSeen.None? <==> isOnline)
    ensures out.0.Ok? && !isOnline ==> out.1[userId].lastSeen == Some(now)
    ensures out.0.Ok? ==> out.1[userId] == users[userId].(isOnline := out.1[userId].isOnline, lastSeen := out.1[userId].lastSeen)
    ensures forall v :: v in users && v != userId ==> v in out.1 && out.1[v] == users[v]
  {
    if userId !in users then (Err(STORE_FAILURE), users)
    else (Ok(()), users[userId := users[userId].(isOnline := isOnline, lastSeen := if isOnline then None else Some(now))])
  }

  /** updateLastSeen: stamps `lastSeen` and touches nothing else, `isOnline` included. */
  function StampLastSeen(users: map<UserId, User>, userId: UserId, now: int): (out: (Result<()>, map<UserId, User>))
    ensures out.0.Ok? <==> userId in users
    ensures out.0.Err? ==> out.1 == users
    ensures out.0.Ok? ==> out.1 == users[userId := users[userId].(lastSeen := Some(now))]
  {
    if userId !in users then (Err(STORE_FAILURE), users)
    else (Ok(()), users[userId := users[userId].(lastSeen := Some(now))])
  }

  /** updateUsername: a taken name is refused first; the update of a missing user then fails in the store. */
  function Rename(users: map<UserId, User>, userId: UserId, username: string): (out: (Result<User>, map<UserId, User>))
    ensures !UsernameAvailable(users, username) ==> out == (Err(Failed("Username is already taken")), users)
    ensures out.0.Ok? <==> UsernameAvailable(users, username) && userId in users
    ensures out.0.Err? ==> out.1 == users
    ensures out.0.Ok? ==> out.0.value == users[userId].(username := Some(username))
    ensures out.0.Ok? ==> out.1 == users[userId := out.0.value]
    ensures UniqueUsernames(users) ==> UniqueUsernames(out.1)
  {
    if !UsernameAvailable(users, username) then (Err(Failed("Username is already taken")), users)
    else if userId !in users then (Err(STORE_FAILURE), users)
    else
      var u := users[userId].(username := Some(username));
      (Ok(u), users[userId := u])
  }

  /** getAllUsers: every user but the caller. */
  method GetAllUsers(db: Store, currentUserId: UserId) returns (r: seq<UserId>)
    ensures Distinct(r)
    ensures forall u :: u in r <==> u in db.users && u != currentUserId
    ensures currentUserId !in r
  {
    r := Select(db.users, (u: UserId, row: User) => u != currentUserId);
  }

  /** searchUser: `findFirst` by username or id; which of two hits comes back is the store's choice. */
  method SearchUser(db: Store, query: string) returns (r: Option<UserId>)
    ensures r.Some? ==> SearchHit(db.users, query, r.value)
    ensures r.None? <==> forall u :: u in db.users ==> !SearchHit(db.users, query, u)
  {
    if u :| u in db.users && SearchHit(db.users, query, u) {
      r := Some(u);
    } else {
      r := None;
    }
  }

  method UpdateOnlineStatus(db: Store, userId: UserId, isOnline: bool, now: int) returns (r: Result<()>)
    modifies db`users
    ensures (r, db.users) == SetOnline(old(db.users), userId, isOnline, now)
  {
    if userId !in db.users {
      return Err(STORE_FAILURE);
    }
    db.users := db.users[userId := db.users[userId].(isOnline := isOnline, lastSeen := if isOnline then None else Some(now))];
    r := Ok(());
  }

  method UpdateLastSeen(db: Store, userId: UserId, now: int) returns (r: Result<()>)
    modifies db`users
    ensures (r, db.users) == StampLastSeen(old(db.users), userId, now)
  {
    if userId !in db.users {
      return Err(STORE_FAILURE);
    }
    db.users := db.users[userId := db.users[userId].(lastSeen := Some(now))];
    r := Ok(());
  }

  method IsUsernameAvailable(db: Store, username: string) returns (r: bool)
    ensures r <==> forall u :: u in db.users ==> db.users[u].username != Some(username)
  {
    r := !exists u :: u in db.users && db.users[u].username == Some(username);
  }

  method UpdateUsername(db: Store, userId: UserId, username: string) returns (r: Result<User>)
    modifies db`users
    ensures (r, db.users) == Rename(old(db.users), userId, username)
  {
    var available := IsUsernameAvailable(db, username);
    if !available {
      return Err(Failed("Username is already taken"));
    }
    if userId !in db.users {
      return Err(STORE_FAILURE);
    }
    var u := db.users[userId].(username := Some(username));
    db.users := db.users[userId := u];
    r := Ok(u);
  }

  // ---------------------------------------------------------------- properties

  /** Setting one's current username again is refused: the name is taken, by oneself. */
  lemma KeepingOwnUsernameIsRefused(users: map<UserId, User>, userId: UserId)
    requires userId in users && users[userId].username.Some?
    ensures Rename(users, userId, users[userId].username.value).0 == Err(Failed("Username is already taken"))
  {
    assert !UsernameAvailable(users, users[userId].username.value);
  }

  /** After a successful rename the name is gone from the available pool and resolves to the user. */
  lemma {:induction false} RenamedUserIsFoundByName(users: map<UserId, User>, userId: UserId, username: string)
    requires UniqueUsernames(users)
    requires Rename(users, userId, username).0.Ok?
    ensures var after := Rename(users, userId, username).1;
      && !UsernameAvailable(after, username)
      && forall u :: SearchHit(after, username, u) ==> u == userId || u == username
  {
    var after := Rename(users, userId, username).1;
    assert after[userId].username == Some(username);
    forall u | SearchHit(after, username, u)
      ensures u == userId || u == username
    {
      assert UniqueUsernames(after);
    }
  }

  /** Going offline then online leaves the user online with no last-seen time. */
  lemma OfflineThenOnline(users: map<UserId, User>, userId: UserId, t1: int, t2: int)
    requires userId in users
    ensures var after := SetOnline(SetOnline(users, userId, false, t1).1, userId, true, t2).1;
      after[userId].isOnline && after[userId].lastSeen == None
  {
  }
}

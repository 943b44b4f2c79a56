/** Registration and login by email and password. */
module AuthService {
  import opened Common
  import opened Store
  import UserService

  datatype RegisterDto = RegisterDto(name: string, email: string, password: string, avatar: Option<string>, username: Option<string>)

  /** The `email` column is unique: no two users share an address. */
  ghost predicate UniqueEmails(users: map<UserId, User>)
  {
    forall a, b :: a in users && b in users && a != b ==> users[a].email != users[b].email
  }

  predicate EmailTaken(users: map<UserId, User>, email: string)
  {
    exists u :: u in users && users[u].email == email
  }

  /**
   * The schema's defaults for the presence columns of a new user.  The services do not set them,
   * so the model leaves their values unspecified.
   */
  const NEW_USER_ONLINE: bool
  const NEW_USER_LAST_SEEN: Option<int>

  /**
   * The row `register` creates: the optional columns it does not set are null, and the presence
   * columns take their schema defaults.
   */
  function NewUser(dto: RegisterDto, hash: string -> string): (u: User)
  {
    User(dto.name, dto.email, hash(dto.password), dto.username, dto.avatar, None, None, None,
         NEW_USER_ONLINE, NEW_USER_LAST_SEEN)
  }

  /**
   * register: BadRequest when the email is in use; otherwise the user is created with the hashed
   * password, and a username someone already has breaks the unique constraint.
   */
  function Register(users: map<UserId, User>, id: UserId, dto: RegisterDto, hash: string -> string): (out: (Result<PublicUser>, map<UserId, User>))
    requires id !in users
    ensures EmailTaken(users, dto.email) ==> out == (Err(BadRequest("User already exists")), users)
    ensures out.0.Ok? <==> !EmailTaken(users, dto.email) && (dto.username.None? || UserService.UsernameAvailable(users, dto.username.value))
    ensures out.0.Err? ==> out.1 == users
    ensures out.0.Ok? ==> out.1 == users[id := NewUser(dto, hash)] && out.0.value == Public(id, NewUser(dto, hash))
    ensures out.0.Ok? ==> PasswordMatches(hash, dto.password, out.1[id].password)
    ensures UniqueEmails(users) ==> UniqueEmails(out.1)
    ensures UserService.UniqueUsernames(users) ==> UserService.UniqueUsernames(out.1)
  {
    if EmailTaken(users, dto.email) then (Err(BadRequest("User already exists")), users)
    else if dto.username.Some? && !UserService.UsernameAvailable(users, dto.username.value) then
      (Err(STORE_FAILURE), users)
    else (Ok(Public(id, NewUser(dto, hash))), users[id := NewUser(dto, hash)])
  }

  method RegisterUser(db: Store, id: UserId, dto: RegisterDto, hash: string -> string) returns (r: Result<PublicUser>)
    requires id !in db.users
    modifies db`users
    ensures (r, db.users) == Register(old(db.users), id, dto, hash)
  {
    if exists u :: u in db.users && db.users[u].email == dto.email {
      return Err(BadRequest("User already exists"));
    }
    if dto.username.Some? && exists u :: u in db.users && db.users[u].username == dto.username {
      return Err(STORE_FAILURE);
    }
    var u := NewUser(dto, hash);
    db.users := db.users[id := u];
    r := Ok(Public(id, u));
  }

  /**
   * login: the user found by email, without its password.  An unknown email and a wrong password
   * give the very same error, so the answer does not reveal whether the address is registered.
   */
  method Login(db: Store, email: string, password: string, hash: string -> string) returns (r: Result<PublicUser>)
    ensures r.Err? ==> r == Err(Unauthorized("Invalid credentials"))
    ensures r.Ok? ==> exists id :: (id in db.users && db.users[id].email == email
                                    && PasswordMatches(hash, password, db.users[id].password) && r.value == Public(id, db.users[id]))
    ensures !EmailTaken(db.users, email) ==> r.Err?
    ensures UniqueEmails(db.users) ==>
      (r.Ok? <==> exists id :: id in db.users && db.users[id].email == email && PasswordMatches(hash, password, db.users[id].password))
  {
    if id :| id in db.users && db.users[id].email == email {
      if !PasswordMatches(hash, password, db.users[id].password) {
        return Err(Unauthorized("Invalid credentials"));
      }
      return Ok(Public(id, db.users[id]));
    }
    r := Err(Unauthorized("Invalid credentials"));
  }

  // ---------------------------------------------------------------- properties

  /** Registering twice with one email: the second attempt is refused and changes nothing. */
  lemma {:induction false} SecondRegistrationRefused(users: map<UserId, User>, id1: UserId, id2: UserId,
                                                      dto1: RegisterDto, dto2: RegisterDto, hash: string -> string)
    requires id1 !in users && id2 !in users && id1 != id2
    requires dto1.email == dto2.email
    requires Register(users, id1, dto1, hash).0.Ok?
    ensures var after := Register(users, id1, dto1, hash).1;
      Register(after, id2, dto2, hash) == (Err(BadRequest("User already exists")), after)
  {
    var after := Register(users, id1, dto1, hash).1;
    assert after[id1].email == dto2.email;
  }

  /** The stored password is the hash; the plain text is stored only if the hash leaves it unchanged. */
  lemma StoredPasswordIsTheHash(users: map<UserId, User>, id: UserId, dto: RegisterDto, hash: string -> string)
    requires id !in users
    requires Register(users, id, dto, hash).0.Ok?
    requires hash(dto.password) != dto.password
    ensures Register(users, id, dto, hash).1[id].password != dto.password
  {
  }

  /** Register, then log in with the same email and password: the login succeeds and returns that user. */
  method RegisterThenLogin(db: Store, id: UserId, dto: RegisterDto, hash: string -> string) returns (r: Result<PublicUser>)
    requires id !in db.users
    requires UniqueEmails(db.users)
    requires Register(db.users, id, dto, hash).0.Ok?
    modifies db`users
    ensures r == Ok(Public(id, NewUser(dto, hash)))
  {
    var reg := RegisterUser(db, id, dto, hash);
    assert UniqueEmails(db.users);
    r := Login(db, dto.email, dto.password, hash);
    assert db.users[id].email == dto.email;
  }
}

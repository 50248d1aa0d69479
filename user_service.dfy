/**
 * The user collection: registration with a uniqueness check on username and
 * email, the four lookups, and the field-by-field profile update that checks
 * for clashes, re-hashes a new password and saves only at the end.
 */
module Users {
  import opened Results
  import opened Exceptions
  import Js

  /** A stored user document, without its id (the collection's key) and the two login timestamps. */
  datatype User = User(
    username: string,
    email: string,
    passwordHash: string,
    passwordSalt: string,
    role: string,
    emailVerified: bool,
    failedLoginAttempts: nat,
    isActive: bool)

  /** A document as a query returns it: its id and its fields. */
  datatype Stored = Stored(id: string, user: User)

  /** The registration payload; an undefined `role` takes the schema default. */
  datatype CreateUserDto = CreateUserDto(
    username: string, email: string, passwordHash: string, passwordSalt: string, role: Option<string>)

  /** One of the remaining update fields, with `None` for `undefined` or `null`. */
  datatype OtherUpdate = SetRole(role: Option<string>) | SetEmailVerified(emailVerified: Option<bool>)

  /**
   * The update payload: the three fields the service handles itself, and the
   * remaining ones in the order `Object.entries` lists them.
   */
  datatype UpdateUserDto = UpdateUserDto(
    username: Option<string>, email: Option<string>, password: Option<string>, others: seq<OtherUpdate>)

  const DefaultRole := "user"
  const TakenMessage := "Username or email is already taken"
  const UsernameTakenMessage := "Username is already taken"
  const EmailTakenMessage := "Email is already taken"

  function NotFoundMessage(userId: string): string {
    "User with ID " + userId + " not found"
  }

  /** No two documents share a username or an email (the schema's unique indexes). */
  ghost predicate Unique(users: map<string, User>) {
    forall a, b :: a in users && b in users && a != b ==>
      users[a].username != users[b].username && users[a].email != users[b].email
  }

  /** Some document has this username or this email (the `$or` query of `findUser`). */
  predicate Taken(users: map<string, User>, username: string, email: string) {
    exists id :: id in users && (users[id].username == username || users[id].email == email)
  }

  /** A document other than `userId` has this username. */
  predicate UsernameHeldByOther(users: map<string, User>, userId: string, username: string) {
    exists id :: id in users && id != userId && users[id].username == username
  }

  /** A document other than `userId` has this email. */
  predicate EmailHeldByOther(users: map<string, User>, userId: string, email: string) {
    exists id :: id in users && id != userId && users[id].email == email
  }

  /** The document `insertUser` creates: the given fields and the schema defaults. */
  function NewUser(dto: CreateUserDto): (u: User)
    ensures u.username == dto.username && u.email == dto.email
    ensures u.passwordHash == dto.passwordHash && u.passwordSalt == dto.passwordSalt
    ensures u.role == (if dto.role.Some? then dto.role.value else DefaultRole)
    ensures !u.emailVerified && u.isActive && u.failedLoginAttempts == 0
  {
    User(dto.username, dto.email, dto.passwordHash, dto.passwordSalt,
      match dto.role case Some(r) => r case None => DefaultRole,
      false, 0, true)
  }

  // ---------------------------------------------------------------------------
  // The update, as a function of the collection it reads
  // ---------------------------------------------------------------------------

  /** The username step: a truthy, different username must not be held by another document. */
  function RenameStep(users: map<string, User>, userId: string, user: User, username: Option<string>): (r: Result<User, Thrown>)
    ensures r.Ok? ==> r.value == user.(username := r.value.username)
    ensures r.Ok? ==> r.value.username == (if Js.Truthy(username) then username.value else user.username)
    ensures r.Ok? ==> r.value.username == user.username || !UsernameHeldByOther(users, userId, r.value.username)
    ensures r.Err? ==> r.error == Conflict(UsernameTakenMessage) && username.Some? && UsernameHeldByOther(users, userId, username.value)
  {
    if Js.Truthy(username) && username.value != user.username then
      if UsernameHeldByOther(users, userId, username.value) then Err(Conflict(UsernameTakenMessage))
      else Ok(user.(username := username.value))
    else Ok(user)
  }

  /** The email step: as the username step, and a changed email is no longer verified. */
  function EmailStep(users: map<string, User>, userId: string, user: User, email: Option<string>): (r: Result<User, Thrown>)
    ensures r.Ok? ==> r.value == user.(email := r.value.email, emailVerified := r.value.emailVerified)
    ensures r.Ok? ==> r.value.email == (if Js.Truthy(email) then email.value else user.email)
    ensures r.Ok? ==> r.value.emailVerified == (user.emailVerified && r.value.email == user.email)
    ensures r.Ok? ==> r.value.email == user.email || !EmailHeldByOther(users, userId, r.value.email)
    ensures r.Err? ==> r.error == Conflict(EmailTakenMessage) && email.Some? && EmailHeldByOther(users, userId, email.value)
  {
    if Js.Truthy(email) && email.value != user.email then
      if EmailHeldByOther(users, userId, email.value) then Err(Conflict(EmailTakenMessage))
      else Ok(user.(email := email.value, emailVerified := false))
    else Ok(user)
  }

  /** The password step: a truthy password is hashed with a fresh salt, and both are stored. */
  function PasswordStep(user: User, password: Option<string>, salt: string, hash: (string, string) -> string): (u: User)
    ensures u == user.(passwordHash := u.passwordHash, passwordSalt := u.passwordSalt)
    ensures Js.Truthy(password) ==> u.passwordHash == hash(password.value, salt) && u.passwordSalt == salt
    ensures !Js.Truthy(password) ==> u == user
  {
    if Js.Truthy(password) then user.(passwordHash := hash(password.value, salt), passwordSalt := salt)
    else user
  }

  /** One remaining field, copied only when it is neither `undefined` nor `null`. */
  function ApplyOther(user: User, update: OtherUpdate): User {
    match update
    case SetRole(Some(role)) => user.(role := role)
    case SetEmailVerified(Some(verified)) => user.(emailVerified := verified)
    case _ => user
  }

  /** The remaining fields applied in order: only the role and the verification flag can change. */
  function ApplyOthers(user: User, others: seq<OtherUpdate>): (u: User)
    ensures u == user.(role := u.role, emailVerified := u.emailVerified)
  {
    if others == [] then user else ApplyOther(ApplyOthers(user, others[..|others| - 1]), others[|others| - 1])
  }

  /** The last role the remaining fields set, if any. */
  function LastRole(others: seq<OtherUpdate>): Option<string> {
    if others == [] then None
    else match others[|others| - 1]
      case SetRole(Some(role)) => Some(role)
      case _ => LastRole(others[..|others| - 1])
  }

  /** The last verification flag the remaining fields set, if any. */
  function LastEmailVerified(others: seq<OtherUpdate>): Option<bool> {
    if others == [] then None
    else match others[|others| - 1]
      case SetEmailVerified(Some(verified)) => Some(verified)
      case _ => LastEmailVerified(others[..|others| - 1])
  }

  /**
   * `updateUser` as a function of the collection: the document it saves, or
   * the error it throws (then nothing is saved).
   */
  function Updated(users: map<string, User>, userId: string, dto: UpdateUserDto, salt: string,
                   hash: (string, string) -> string): (r: Result<User, Thrown>)
    ensures userId !in users ==> r == Err(NotFound(NotFoundMessage(userId)))
    ensures r.Err? ==> r.error in {NotFound(NotFoundMessage(userId)), Conflict(UsernameTakenMessage), Conflict(EmailTakenMessage)}
    ensures r.Ok? ==> userId in users
    ensures r.Ok? ==> r.value.username == users[userId].username || !UsernameHeldByOther(users, userId, r.value.username)
    ensures r.Ok? ==> r.value.email == users[userId].email || !EmailHeldByOther(users, userId, r.value.email)
    ensures r.Ok? ==> r.value.failedLoginAttempts == users[userId].failedLoginAttempts && r.value.isActive == users[userId].isActive
  {
    if userId !in users then Err(NotFound(NotFoundMessage(userId)))
    else
      var renamed :- RenameStep(users, userId, users[userId], dto.username);
      var readdressed :- EmailStep(users, userId, renamed, dto.email);
      Ok(ApplyOthers(PasswordStep(readdressed, dto.password, salt, hash), dto.others))
  }

  /** The remaining fields change only the role and the verification flag, each to the last value given. */
  lemma {:induction false} ApplyOthersFields(user: User, others: seq<OtherUpdate>)
    ensures var u := ApplyOthers(user, others);
      && u.role == (if LastRole(others).Some? then LastRole(others).value else user.role)
      && u.emailVerified == (if LastEmailVerified(others).Some? then LastEmailVerified(others).value else user.emailVerified)
      && u == user.(role := u.role, emailVerified := u.emailVerified)
  {
    if others != [] {
      ApplyOthersFields(user, others[..|others| - 1]);
    }
  }

  /** An unknown id fails with NotFound. */
  lemma UpdateUnknownUser(users: map<string, User>, userId: string, dto: UpdateUserDto, salt: string,
                          hash: (string, string) -> string)
    requires userId !in users
    ensures Updated(users, userId, dto, salt, hash) == Err(NotFound("User with ID " + userId + " not found"))
  {
  }

  /**
   * The update fails exactly when the id is unknown, the new username (when
   * truthy and different) belongs to another user, or the new email (when
   * truthy and different) belongs to another user; the username is checked first.
   */
  lemma UpdateFailures(users: map<string, User>, userId: string, dto: UpdateUserDto, salt: string,
                       hash: (string, string) -> string)
    requires userId in users
    ensures var user := users[userId];
      var r := Updated(users, userId, dto, salt, hash);
      var renames := Js.Truthy(dto.username) && dto.username.value != user.username;
      var readdresses := Js.Truthy(dto.email) && dto.email.value != user.email;
      var usernameClash := renames && UsernameHeldByOther(users, userId, dto.username.value);
      var emailClash := readdresses && EmailHeldByOther(users, userId, dto.email.value);
      && (usernameClash ==> r == Err(Conflict(UsernameTakenMessage)))
      && (!usernameClash && emailClash ==> r == Err(Conflict(EmailTakenMessage)))
      && (r.Ok? <==> !usernameClash && !emailClash)
  {
  }

  /**
   * A successful update: a truthy new username or email replaces the old one,
   * a changed email is unverified unless the payload sets the flag itself, a
   * truthy password is re-hashed with the fresh salt, the remaining fields
   * take their last non-null value, and the login counters and the active
   * flag are untouched.
   */
  lemma UpdateFields(users: map<string, User>, userId: string, dto: UpdateUserDto, salt: string,
                     hash: (string, string) -> string)
    requires Updated(users, userId, dto, salt, hash).Ok?
    ensures userId in users
    ensures var before := users[userId];
      var u := Updated(users, userId, dto, salt, hash).value;
      && u.username == (if Js.Truthy(dto.username) then dto.username.value else before.username)
      && u.email == (if Js.Truthy(dto.email) then dto.email.value else before.email)
      && u.emailVerified ==
           (if LastEmailVerified(dto.others).Some? then LastEmailVerified(dto.others).value
            else if Js.Truthy(dto.email) && dto.email.value != before.email then false
            else before.emailVerified)
      && (Js.Truthy(dto.password) ==> u.passwordHash == hash(dto.password.value, salt) && u.passwordSalt == salt)
      && (!Js.Truthy(dto.password) ==> u.passwordHash == before.passwordHash && u.passwordSalt == before.passwordSalt)
      && u.role == (if LastRole(dto.others).Some? then LastRole(dto.others).value else before.role)
      && u.failedLoginAttempts == before.failedLoginAttempts && u.isActive == before.isActive
  {
    var user := users[userId];
    var renamed := RenameStep(users, userId, user, dto.username).value;
    assert renamed == user.(username := renamed.username);
    var readdressed := EmailStep(users, userId, renamed, dto.email).value;
    assert readdressed == renamed.(email := readdressed.email, emailVerified := readdressed.emailVerified);
    var hashed := PasswordStep(readdressed, dto.password, salt, hash);
    assert hashed == readdressed.(passwordHash := hashed.passwordHash, passwordSalt := hashed.passwordSalt);
    ApplyOthersFields(hashed, dto.others);
  }

  /** A saved update keeps usernames and emails unique. */
  lemma UpdateKeepsUnique(users: map<string, User>, userId: string, dto: UpdateUserDto, salt: string,
                          hash: (string, string) -> string)
    requires Unique(users)
    requires Updated(users, userId, dto, salt, hash).Ok?
    ensures Unique(users[userId := Updated(users, userId, dto, salt, hash).value])
  {
    UpdateFields(users, userId, dto, salt, hash);
    UpdateFailures(users, userId, dto, salt, hash);
    var u := Updated(users, userId, dto, salt, hash).value;
    var users' := users[userId := u];
    forall a, b | a in users' && b in users' && a != b
      ensures users'[a].username != users'[b].username && users'[a].email != users'[b].email
    {
      if a != userId && b != userId {
        assert users'[a] == users[a] && users'[b] == users[b];
      }
    }
  }

  /** Registering a document whose username and email are both free keeps them unique. */
  lemma InsertKeepsUnique(users: map<string, User>, newId: string, dto: CreateUserDto)
    requires Unique(users) && newId !in users
    requires !Taken(users, dto.username, dto.email)
    ensures Unique(users[newId := NewUser(dto)])
  {
    var users' := users[newId := NewUser(dto)];
    forall a, b | a in users' && b in users' && a != b
      ensures users'[a].username != users'[b].username && users'[a].email != users'[b].email
    {
      if a == newId {
        assert b in users && !(users[b].username == dto.username || users[b].email == dto.email);
      } else if b == newId {
        assert a in users && !(users[a].username == dto.username || users[a].email == dto.email);
      }
    }
  }

  // ---------------------------------------------------------------------------
  // The service over its collection
  // ---------------------------------------------------------------------------

  /** The service and the user collection it reads and writes, keyed by document id. */
  class UserService {
    var users: map<string, User>
    /** `bcrypt.hash(password, salt)`. */
    const hash: (string, string) -> string

    ghost predicate Valid()
      reads this
    {
      Unique(users)
    }

    constructor (hash: (string, string) -> string)
      ensures users == map[] && this.hash == hash
      ensures Valid()
    {
      users := map[];
      this.hash := hash;
    }

    /** `findUserById`: the document with this id, if any. */
    function FindUserById(userId: string): (found: Option<User>)
      reads this
      ensures found.Some? <==> userId in users
      ensures found.Some? ==> found.value == users[userId]
    {
      if userId in users then Some(users[userId]) else None
    }

    /** `findUser`: some document with this email or this username (which one is the database's choice). */
    method FindUser(username: string, email: string) returns (found: Option<Stored>)
      ensures found.Some? <==> Taken(users, username, email)
      ensures found.Some? ==> found.value.id in users && users[found.value.id] == found.value.user
      ensures found.Some? ==> found.value.user.username == username || found.value.user.email == email
    {
      if Taken(users, username, email) {
        var id :| id in users && (users[id].username == username || users[id].email == email);
        found := Some(Stored(id, users[id]));
      } else {
        found := None;
      }
    }

    /** `findUserByUsername`: a document with this username, if any. */
    method FindUserByUsername(username: string) returns (found: Option<Stored>)
      ensures found.Some? <==> exists id :: id in users && users[id].username == username
      ensures found.Some? ==> found.value.id in users && users[found.value.id] == found.value.user
      ensures found.Some? ==> found.value.user.username == username
    {
      if exists id :: id in users && users[id].username == username {
        var id :| id in users && users[id].username == username;
        found := Some(Stored(id, users[id]));
      } else {
        found := None;
      }
    }

    /** `findUserByEmail`: a document with this email, if any. */
    method FindUserByEmail(email: string) returns (found: Option<Stored>)
      ensures found.Some? <==> exists id :: id in users && users[id].email == email
      ensures found.Some? ==> found.value.id in users && users[found.value.id] == found.value.user
      ensures found.Some? ==> found.value.user.email == email
    {
      if exists id :: id in users && users[id].email == email {
        var id :| id in users && users[id].email == email;
        found := Some(Stored(id, users[id]));
      } else {
        found := None;
      }
    }

    /**
     * `insertUser`: refuse when the username or the email is taken, otherwise
     * save the new document under the id the database assigns (`newId`).
     */
    method InsertUser(dto: CreateUserDto, newId: string) returns (r: Result<User, Thrown>)
      requires newId !in users
      modifies this
      ensures Taken(old(users), dto.username, dto.email) ==>
        r == Err(Conflict(TakenMessage)) && users == old(users)
      ensures !Taken(old(users), dto.username, dto.email) ==>
        r == Ok(NewUser(dto)) && users == old(users)[newId := NewUser(dto)]
      ensures old(Valid()) ==> Valid()
    {
      var existing := FindUser(dto.username, dto.email);
      if existing.Some? {
        return Err(Conflict(TakenMessage));
      }
      var user := User(dto.username, dto.email, dto.passwordHash, dto.passwordSalt,
        if dto.role.Some? then dto.role.value else DefaultRole, false, 0, true);
      ghost var before := users;
      users := users[newId := user];
      if Unique(before) {
        InsertKeepsUnique(before, newId, dto);
      }
      r := Ok(user);
    }

    /** The username block of `updateUser`: a truthy, different username is looked up and refused when another document holds it. */
    method Rename(userId: string, user: User, username: Option<string>) returns (r: Result<User, Thrown>)
      requires userId in users && users[userId].username == user.username
      ensures r == RenameStep(users, userId, user, username)
    {
      if Js.Truthy(username) && username.value != user.username {
        var existing := FindUserByUsername(username.value);
        if existing.Some? && existing.value.id != userId {
          return Err(Conflict(UsernameTakenMessage));
        }
        return Ok(user.(username := username.value));
      }
      return Ok(user);
    }

    /** The email block of `updateUser`: as the username block, and a changed email is marked unverified. */
    method Readdress(userId: string, user: User, email: Option<string>) returns (r: Result<User, Thrown>)
      requires userId in users && users[userId].email == user.email
      ensures r == EmailStep(users, userId, user, email)
    {
      if Js.Truthy(email) && email.value != user.email {
        var existing := FindUserByEmail(email.value);
        if existing.Some? && existing.value.id != userId {
          return Err(Conflict(EmailTakenMessage));
        }
        var changed := user.(email := email.value);
        return Ok(changed.(emailVerified := false));
      }
      return Ok(user);
    }

    /** The loop over the remaining fields of the payload: each one neither `undefined` nor `null` is copied. */
    static method ApplyRemaining(user: User, others: seq<OtherUpdate>) returns (u: User)
      ensures u == ApplyOthers(user, others)
    {
      u := user;
      for i := 0 to |others|
        invariant u == ApplyOthers(user, others[..i])
      {
        assert others[..i + 1][..i] == others[..i];
        match others[i]
        case SetRole(Some(role)) => u := u.(role := role);
        case SetEmailVerified(Some(verified)) => u := u.(emailVerified := verified);
        case _ =>
      }
      assert others[..|others|] == others;
    }

    /**
     * `updateUser`: load the document, change it field by field (checking each
     * new username and email against the other documents, re-hashing a new
     * password with the fresh `salt`), then save it; any error leaves the
     * collection as it was.
     */
    method UpdateUser(userId: string, dto: UpdateUserDto, salt: string) returns (r: Result<User, Thrown>)
      modifies this
      ensures r == Updated(old(users), userId, dto, salt, hash)
      ensures r.Ok? ==> users == old(users)[userId := r.value]
      ensures r.Err? ==> users == old(users)
      ensures old(Valid()) ==> Valid()
    {
      var found := FindUserById(userId);
      if found.None? {
        return Err(NotFound(NotFoundMessage(userId)));
      }
      var renamed := Rename(userId, found.value, dto.username);
      if renamed.Err? {
        return Err(renamed.error);
      }
      var readdressed := Readdress(userId, renamed.value, dto.email);
      if readdressed.Err? {
        return Err(readdressed.error);
      }
      var user := PasswordStep(readdressed.value, dto.password, salt, hash);
      user := ApplyRemaining(user, dto.others);
      ghost var before := users;
      users := users[userId := user];
      if Unique(before) {
        UpdateKeepsUnique(before, userId, dto, salt, hash);
      }
      r := Ok(user);
    }
  }
}

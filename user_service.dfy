/**
 * Registration and login (internal/services/user_service.go): two ordered
 * guard chains over the users table. Password hashing and checking are
 * parameters (`hash` may fail; `check(password, hash)` says whether a
 * password matches a stored hash).
 */
module UserService {
  import opened Common
  import opened Models
  import opened Ledger
  import UserDomain

  const CredentialsRequired := "username and email are required"
  const HashFailed := "failed to process password"
  const InvalidCredentials := "invalid username or password"
  const AccountInactive := "account is inactive"

  /** The registration form (dtos.RegisterRequest). */
  datatype RegisterRequest = RegisterRequest(username: string, email: string, password: string)

  /** Which statements of one registration the database refuses. */
  datatype RegisterFaults = RegisterFaults(usernameRead: bool, emailRead: bool, insert: bool)

  // ---------------------------------------------------------------------
  // Register
  // ---------------------------------------------------------------------

  /** The user a registration inserts: active, carrying the hash rather than the password. */
  function NewUser(form: RegisterRequest, passwordHash: string): User
  {
    User(0, form.username, form.email, passwordHash, true)
  }

  /**
   * `Register`: both names are required; a taken username, then a taken
   * email, is a conflict; then the password is hashed and the user inserted.
   * A failed lookup counts as "not taken", since its error is discarded.
   */
  function Registration(t: Tables, form: RegisterRequest, hash: string -> Option<string>, f: RegisterFaults): Outcome<User>
  {
    if form.username == "" || form.email == "" then
      Outcome(Err(BadRequest(CredentialsRequired)), t)
    else if UserDomain.GetUserByUsername(t, form.username, f.usernameRead).0.Some? then
      Outcome(Err(Conflict("username", form.username)), t)
    else if UserDomain.GetUserByEmail(t, form.email, f.emailRead).0.Some? then
      Outcome(Err(Conflict("email", form.email)), t)
    else if hash(form.password).None? then
      Outcome(Err(Internal(HashFailed)), t)
    else
      var w := UserDomain.SaveUser(t, NewUser(form, hash(form.password).value), f.insert);
      if w.err.Some? then Outcome(Err(w.err.value), t) else Outcome(Ok(w.record), t.(users := w.table))
  }

  method Register(db: Database, form: RegisterRequest, hash: string -> Option<string>, f: RegisterFaults)
    returns (r: Result<User>)
    modifies db
    ensures Outcome(r, db.tables) == Registration(old(db.tables), form, hash, f)
  {
    if form.username == "" || form.email == "" {
      return Err(BadRequest(CredentialsRequired));
    }
    var (existing, _) := UserDomain.GetUserByUsername(db.tables, form.username, f.usernameRead);
    if existing.Some? {
      return Err(Conflict("username", form.username));
    }
    var (sameEmail, _) := UserDomain.GetUserByEmail(db.tables, form.email, f.emailRead);
    if sameEmail.Some? {
      return Err(Conflict("email", form.email));
    }
    var passwordHash := hash(form.password);
    if passwordHash.None? {
      return Err(Internal(HashFailed));
    }
    var user := User(0, form.username, form.email, passwordHash.value, true);
    var saved, err := UserDomain.CreateUser(db, user, f.insert);
    if err.Some? {
      return Err(err.value);
    }
    r := Ok(saved);
  }

  /**
   * The guards in order: missing names, then a username found, then an
   * email found, then a failed hash. A failed registration never writes.
   */
  lemma RegistrationGuards(t: Tables, form: RegisterRequest, hash: string -> Option<string>, f: RegisterFaults)
    ensures var o := Registration(t, form, hash, f);
      && (o.result.Err? ==> o.tables == t)
      && (form.username == "" || form.email == "" ==> o.result == Err(BadRequest(CredentialsRequired)))
      && (form.username != "" && form.email != "" && !f.usernameRead
          && (exists k :: k in t.users.rows && t.users.rows[k].username == form.username) ==>
            o.result == Err(Conflict("username", form.username)))
      && (o.result == Err(Conflict("email", form.email)) ==>
            !f.emailRead && exists k :: k in t.users.rows && t.users.rows[k].email == form.email)
      && (form.username != "" && form.email != ""
          && (f.usernameRead || forall k :: k in t.users.rows ==> t.users.rows[k].username != form.username)
          && !f.emailRead && (exists k :: k in t.users.rows && t.users.rows[k].email == form.email) ==>
            o.result == Err(Conflict("email", form.email)))
  {
  }

  /**
   * A successful registration inserts exactly one user, under the next id,
   * active, with the hash of the password, and changes no other table; a
   * username or email already present (and read without fault) prevents it.
   */
  lemma RegistrationCreatesOneUser(t: Tables, form: RegisterRequest, hash: string -> Option<string>, f: RegisterFaults)
    requires TablesValid(t)
    ensures var o := Registration(t, form, hash, f);
      o.result.Ok? ==>
        var u := o.result.value;
        && TablesValid(o.tables)
        && hash(form.password).Some?
        && u == User(t.users.nextId, form.username, form.email, hash(form.password).value, true)
        && u.id !in t.users.rows
        && o.tables == t.(users := Table(t.users.rows[u.id := u], u.id + 1))
        && (!f.usernameRead ==> forall k :: k in t.users.rows ==> t.users.rows[k].username != form.username)
        && (!f.emailRead ==> forall k :: k in t.users.rows ==> t.users.rows[k].email != form.email)
  {
    var o := Registration(t, form, hash, f);
    if o.result.Ok? {
      SaveTouchesOnlyItsRow(t.users, NewUser(form, hash(form.password).value), UserId, UserWithId, f.insert, "user");
    }
  }

  /** No two users share a username. */
  ghost predicate UniqueUsernames(t: Tables)
  {
    forall j, k :: j in t.users.rows && k in t.users.rows && j != k ==>
      t.users.rows[j].username != t.users.rows[k].username
  }

  /** When the username lookup does not fail, registration keeps usernames unique. */
  lemma RegistrationKeepsUsernamesUnique(t: Tables, form: RegisterRequest, hash: string -> Option<string>, f: RegisterFaults)
    requires TablesValid(t) && UniqueUsernames(t) && !f.usernameRead
    ensures UniqueUsernames(Registration(t, form, hash, f).tables)
  {
    RegistrationCreatesOneUser(t, form, hash, f);
  }

  // ---------------------------------------------------------------------
  // ValidateCredentials
  // ---------------------------------------------------------------------

  /**
   * Login: the user by username, which must be active, and whose stored
   * hash the password must match. An unknown user and a wrong password are
   * indistinguishable to the caller.
   */
  function ValidateCredentials(t: Tables, username: string, password: string, fault: bool,
                               check: (string, string) -> bool): (r: Result<User>)
    ensures r.Ok? ==> r.value.username == username && r.value.isActive && check(password, r.value.passwordHash)
    ensures r.Ok? ==> exists k :: k in t.users.rows && t.users.rows[k] == r.value
    ensures r.Err? ==> r.error == Authorization(InvalidCredentials) || r.error == Authorization(AccountInactive)
  {
    var (user, err) := UserDomain.GetUserByUsername(t, username, fault);
    if err.Some? || user.None? then Err(Authorization(InvalidCredentials))
    else if !user.value.isActive then Err(Authorization(AccountInactive))
    else if !check(password, user.value.passwordHash) then Err(Authorization(InvalidCredentials))
    else Ok(user.value)
  }

  /**
   * The order of the checks: no such user (or a failed read) and a wrong
   * password give the same error; an inactive account is refused before
   * its password is looked at, whatever the password.
   */
  lemma CredentialChecks(t: Tables, username: string, password: string, fault: bool, check: (string, string) -> bool)
    ensures var r := ValidateCredentials(t, username, password, fault, check);
      var found := UserDomain.GetUserByUsername(t, username, fault).0;
      && (found.None? ==> r == Err(Authorization(InvalidCredentials)))
      && (found.Some? && !found.value.isActive ==> r == Err(Authorization(AccountInactive)))
      && (found.Some? && found.value.isActive ==>
            (r.Ok? <==> check(password, found.value.passwordHash))
            && (r.Err? ==> r == Err(Authorization(InvalidCredentials))))
      && (fault ==> r == Err(Authorization(InvalidCredentials)))
  {
  }
}

/** The account routes of Server/Routes/LoginRoutes.js: `POST /login` and
    `POST /signup`. bcrypt is a pair of parameters: `hash` (the pre-save
    hook's hashing) and `matches` (bcrypt.compare). */
module LoginRoutes {
  import opened Common
  import opened UserSchema
  import opened Store
  import Text

  /** The login body; None stands for a missing value. */
  datatype LoginBody = LoginBody(username: Option<string>, password: Option<string>, role: Option<string>)

  /** What a successful login or signup returns about the user: neither
      `accessLevel` nor `generalType` is among these fields. */
  datatype UserReply = UserReply(userId: Id, username: string, email: string, mobile: string, role: Role)

  function ReplyFor(u: User): (r: UserReply)
    ensures r.userId == u.id && r.username == u.username && r.email == u.email
    ensures r.mobile == u.mobile && r.role == u.role
  {
    UserReply(u.id, u.username, u.email, u.mobile, u.role)
  }

  /** What the username unique index guarantees of the user table. */
  predicate DistinctUsernames(users: seq<User>) {
    forall i, j :: 0 <= i < j < |users| ==> users[i].username != users[j].username
  }

  /** The store's invariant gives what Login needs of the user table. */
  lemma ValidUsernames(db: Database)
    requires db.Valid()
    ensures DistinctUsernames(db.users)
  {
  }

  /** The filter `{ username, role }`. Mongoose casts a query value through
      the path's setters, so the username is trimmed before it is compared;
      the role has no setter. */
  predicate Selects(u: User, username: string, role: string)
    ensures Selects(u, username, role) ==> ParseRole(role) == Some(u.role)
  {
    NamesRoundTrip(u.role, AccessLevel.General, Ngo);
    u.username == NormaliseUsername(username) && RoleName(u.role) == role
  }

  /** `User.findOne({ username, role })`: the first user the filter selects. */
  function FindUser(users: seq<User>, username: string, role: string): (r: Option<User>)
    ensures r.Some? <==> exists i :: 0 <= i < |users| && Selects(users[i], username, role)
    ensures r.Some? ==> r.value in users && Selects(r.value, username, role)
  {
    if users == [] then None
    else if Selects(users[0], username, role) then Some(users[0])
    else
      var r := FindUser(users[1..], username, role);
      assert forall i :: 1 <= i < |users| ==> users[i] == users[1..][i - 1];
      r
  }

  /** With distinct usernames at most one user is selected, which is why
      `findOne` and Login need not say which one. */
  lemma SelectedIsUnique(users: seq<User>, username: string, role: string, i: nat, j: nat)
    requires DistinctUsernames(users)
    requires i < |users| && j < |users|
    requires Selects(users[i], username, role) && Selects(users[j], username, role)
    ensures i == j
  {
  }

  /** `!username || !password || !role`. */
  predicate LoginMissing(b: LoginBody)
    ensures !LoginMissing(b) ==>
              && b.username.Some? && b.username.value != "" && b.password.Some? && b.password.value != ""
              && b.role.Some? && b.role.value != ""
  {
    !Truthy(b.username) || !Truthy(b.password) || !Truthy(b.role)
  }

  /** `POST /login`: 400 when a field is missing; otherwise 200 with the
      selected user's reply exactly when some user has that username and
      role and the password matches its hash, and the same 401 answer for an
      unknown user and for a wrong password. */
  function Login(users: seq<User>, body: LoginBody, matches: (string, string) -> bool): (res: Response<UserReply>)
    requires DistinctUsernames(users)
    ensures res == Err(400, "All fields are required") <==> LoginMissing(body)
    ensures !LoginMissing(body) ==>
              (res.Ok? <==> exists i :: 0 <= i < |users| && Selects(users[i], body.username.value, body.role.value)
                                                      && matches(body.password.value, users[i].password))
    ensures !LoginMissing(body) && !res.Ok? ==> res == Err(401, "Invalid credentials")
    ensures res.Ok? ==> res.code == 200
    ensures res.Ok? ==>
              exists i :: 0 <= i < |users| && Selects(users[i], body.username.value, body.role.value)
                                          && res.value == ReplyFor(users[i])
  {
    if LoginMissing(body) then Err(400, "All fields are required")
    else match FindUser(users, body.username.value, body.role.value)
      case None => Err(401, "Invalid credentials")
      case Some(u) =>
        var k :| 0 <= k < |users| && users[k] == u;
        assert forall i :: 0 <= i < |users| && Selects(users[i], body.username.value, body.role.value) ==> i == k by {
          forall i | 0 <= i < |users| && Selects(users[i], body.username.value, body.role.value) {
            SelectedIsUnique(users, body.username.value, body.role.value, i, k);
          }
        }
        if matches(body.password.value, u.password) then Ok(200, ReplyFor(u))
        else Err(401, "Invalid credentials")
  }

  /** The right password under another role than the user's is refused
      with the ordinary 401 answer. */
  lemma WrongRoleRefused(users: seq<User>, k: nat, name: string, password: string, role: string,
                          matches: (string, string) -> bool)
    requires DistinctUsernames(users) && k < |users|
    requires name != "" && NormaliseUsername(name) == users[k].username
    requires password != "" && role != "" && role != RoleName(users[k].role)
    ensures Login(users, LoginBody(Some(name), Some(password), Some(role)), matches) == Err(401, "Invalid credentials")
  {
    forall i | 0 <= i < |users|
      ensures !Selects(users[i], name, role)
    {
      if i < k {
        assert users[i].username != users[k].username;
      } else if k < i {
        assert users[k].username != users[i].username;
      }
    }
  }

  /** A user added to the table can log in with any name that trims to its
      username, its role and any password its hash matches, and gets its own
      reply. */
  lemma LoginAfterInsert(users: seq<User>, u: User, name: string, password: string, matches: (string, string) -> bool)
    requires DistinctUsernames(users + [u])
    requires name != "" && NormaliseUsername(name) == u.username
    requires password != "" && matches(password, u.password)
    ensures Login(users + [u], LoginBody(Some(name), Some(password), Some(RoleName(u.role))), matches) == Ok(200, ReplyFor(u))
  {
    var all := users + [u];
    var body := LoginBody(Some(name), Some(password), Some(RoleName(u.role)));
    assert Selects(all[|users|], name, RoleName(u.role));
    var res := Login(all, body, matches);
    var i :| 0 <= i < |all| && Selects(all[i], name, RoleName(u.role)) && res.value == ReplyFor(all[i]);
    SelectedIsUnique(all, name, RoleName(u.role), i, |users|);
  }

  /** Spaces around the username do not matter: logging in with a name is
      logging in with its trimmed form. */
  lemma LoginTrimsUsername(users: seq<User>, name: string, password: Option<string>, role: Option<string>,
                           matches: (string, string) -> bool)
    requires DistinctUsernames(users) && NormaliseUsername(name) != ""
    ensures Login(users, LoginBody(Some(name), password, role), matches)
            == Login(users, LoginBody(Some(NormaliseUsername(name)), password, role), matches)
  {
    Text.TrimIdempotent(name);
    if role.Some? {
      FindUserTrims(users, name, role.value);
    }
  }

  lemma {:induction false} FindUserTrims(users: seq<User>, name: string, role: string)
    ensures FindUser(users, name, role) == FindUser(users, NormaliseUsername(name), role)
  {
    if users != [] {
      FindUserTrims(users[1..], name, role);
    }
  }

  /** The signup body; None stands for a missing value. */
  datatype SignupBody = SignupBody(
    username: Option<string>,
    email: Option<string>,
    mobile: Option<string>,
    role: Option<string>,
    password: Option<string>)

  /** `!username || !email || !mobile || !role || !password`. */
  predicate SignupMissing(b: SignupBody)
    ensures !SignupMissing(b) ==>
              && b.username.Some? && b.username.value != "" && b.email.Some? && b.email.value != ""
              && b.mobile.Some? && b.mobile.value != "" && b.role.Some? && b.role.value != ""
              && b.password.Some? && b.password.value != ""
  {
    !Truthy(b.username) || !Truthy(b.email) || !Truthy(b.mobile) || !Truthy(b.role) || !Truthy(b.password)
  }

  /** The duplicate check `findOne({ $or: [{ username }, { email }] })`.
      Mongoose casts each query value through the path's setters, so the
      stored values are compared with the trimmed username and the trimmed,
      lower-cased email. */
  predicate Duplicate(users: seq<User>, username: string, email: string)
    ensures Duplicate(users, username, email) <==>
              exists i :: 0 <= i < |users| && (users[i].username == NormaliseUsername(username)
                                               || users[i].email == NormaliseEmail(email))
  {
    Taken(users, NormaliseUsername(username), NormaliseEmail(email))
  }

  /** Submitting a normalised form of the same username or email makes no
      difference to the duplicate check. */
  lemma DuplicateNormalises(users: seq<User>, username: string, email: string)
    ensures Duplicate(users, username, email) == Duplicate(users, NormaliseUsername(username), NormaliseEmail(email))
  {
    Text.TrimIdempotent(username);
    NormaliseEmailIdempotent(email);
  }

  /** An email that differs from a stored one only in case or surrounding
      spaces is refused as a duplicate. */
  lemma EmailVariantIsDuplicate(users: seq<User>, k: nat, username: string, email: string)
    requires k < |users| && NormaliseEmail(email) == users[k].email
    ensures Duplicate(users, username, email)
  {
    assert users[k].email == NormaliseEmail(email);
  }

  /** `user.save()` for a new document: validation first (a failure rejects
      the save; the route has no handler for it, so no answer is sent), then
      the pre-save hook, then the insert, which the unique indexes can
      refuse. On success the answer is 201 with the stored user's reply. */
  method Save(db: Database, doc: UserDocument, hash: string -> string) returns (res: Response<UserReply>)
    requires db.Valid()
    modifies db, doc`password
    ensures db.Valid()
    ensures old(doc.Stored()).None? ==> res == NoReply && db.users == old(db.users)
    ensures res.Ok? ==> old(doc.Stored()).Some?
    ensures res.Ok? ==>
              var u := old(doc.Stored()).value.(id := old(db.nextId), password := doc.password);
              && doc.password == (if doc.passwordModified then hash(old(doc.password)) else old(doc.password))
              && res == Ok(201, ReplyFor(u)) && db.users == old(db.users) + [u]
    ensures old(doc.Stored()).Some? ==>
              var u := old(doc.Stored()).value;
              (res.Ok? <==> !Taken(old(db.users), u.username, u.email))
    ensures !res.Ok? ==> res == NoReply && db.users == old(db.users)
    ensures db.donations == old(db.donations) && db.receives == old(db.receives)
  {
    var valid := doc.Stored();
    if valid.None? {
      return NoReply;
    }
    doc.PreSave(hash);
    var stored := db.InsertUser(valid.value.(password := doc.password));
    if stored.None? {
      return NoReply;
    }
    res := Ok(201, ReplyFor(stored.value));
  }

  /** `POST /signup` as written: 400 when a field is missing, 409 when a
      stored user has the submitted username or email once normalised;
      otherwise the document is built
      without an `accessLevel`, which the schema requires, so the save is
      always rejected: no user is ever added and no answer is sent. */
  method Signup(db: Database, body: SignupBody, hash: string -> string) returns (res: Response<UserReply>)
    requires db.Valid()
    modifies db
    ensures db.Valid()
    ensures SignupMissing(body) ==> res == Err(400, "All fields are required")
    ensures !SignupMissing(body) && Duplicate(old(db.users), body.username.value, body.email.value) ==>
              res == Err(409, "Username or email already exists")
    ensures !SignupMissing(body) && !Duplicate(old(db.users), body.username.value, body.email.value) ==> res == NoReply
    ensures !res.Ok?
    ensures db.users == old(db.users) && db.donations == old(db.donations) && db.receives == old(db.receives)
  {
    if SignupMissing(body) {
      return Err(400, "All fields are required");
    }
    if Duplicate(db.users, body.username.value, body.email.value) {
      return Err(409, "Username or email already exists");
    }
    var doc := new UserDocument(body.username.value, body.email.value, body.mobile.value, body.role.value,
                                None, body.password.value);
    assert doc.Stored().None?;
    res := Save(db, doc, hash);
  }

  /** The access level a new account is given for its role: administrators
      get `super`, volunteers `support` and general users `general`. */
  function AccessLevelFor(role: Role): (a: AccessLevel)
    ensures role == Role.Admin <==> a == Super
    ensures role == Role.Volunteer <==> a == Support
    ensures role == Role.General <==> a == AccessLevel.General
  {
    match role
    case Admin => Super
    case Volunteer => Support
    case General => AccessLevel.General
  }

  /** The `accessLevel` the corrected route passes for a submitted role. */
  function InitialAccessLevel(role: string): Option<string> {
    match ParseRole(role)
    case Some(r) => Some(AccessLevelName(AccessLevelFor(r)))
    case None => None
  }

  /** The user a corrected signup stores for a body that passes every check. */
  function Registered(id: Id, body: SignupBody, role: Role, hash: string -> string): User
    requires !SignupMissing(body)
  {
    User(id, NormaliseUsername(body.username.value), NormaliseEmail(body.email.value), Text.Trim(body.mobile.value),
         role, AccessLevelFor(role), None, NoVolunteerInfo, None, hash(body.password.value), [], [])
  }

  /** Whether the schema accepts the document built from a body: the
      setters must leave username, email and mobile non-empty and the role
      must be in its enumeration. Past the duplicate check, the unique
      indexes cannot refuse it. */
  predicate Admissible(body: SignupBody)
    requires !SignupMissing(body)
  {
    && NormaliseUsername(body.username.value) != ""
    && NormaliseEmail(body.email.value) != ""
    && Text.Trim(body.mobile.value) != ""
    && ParseRole(body.role.value).Some?
  }

  /** `POST /signup` with the access level the role calls for: the two checks
      as before, then one user is added, with trimmed username and mobile,
      normalised email, the role's access level and the hashed password,
      exactly when the schema and the unique indexes accept it. */
  method SignupWithAccessLevel(db: Database, body: SignupBody, hash: string -> string) returns (res: Response<UserReply>)
    requires db.Valid()
    modifies db
    ensures db.Valid()
    ensures SignupMissing(body) ==> res == Err(400, "All fields are required")
    ensures !SignupMissing(body) && Duplicate(old(db.users), body.username.value, body.email.value) ==>
              res == Err(409, "Username or email already exists")
    ensures !SignupMissing(body) && !Duplicate(old(db.users), body.username.value, body.email.value) ==>
              (res.Ok? <==> Admissible(body))
    ensures res.Ok? ==> !SignupMissing(body) && ParseRole(body.role.value).Some?
    ensures res.Ok? ==>
              var u := Registered(old(db.nextId), body, ParseRole(body.role.value).value, hash);
              res == Ok(201, ReplyFor(u)) && db.users == old(db.users) + [u]
    ensures !res.Ok? ==> db.users == old(db.users)
    ensures db.donations == old(db.donations) && db.receives == old(db.receives)
  {
    if SignupMissing(body) {
      return Err(400, "All fields are required");
    }
    if Duplicate(db.users, body.username.value, body.email.value) {
      return Err(409, "Username or email already exists");
    }
    var doc := new UserDocument(body.username.value, body.email.value, body.mobile.value, body.role.value,
                                InitialAccessLevel(body.role.value), body.password.value);
    var role := ParseRole(body.role.value);
    if role.Some? {
      NamesRoundTrip(role.value, AccessLevelFor(role.value), Ngo);
    }
    var valid := doc.Stored();
    if valid.Some? {
      var v := valid.value;
      NamesRoundTrip(v.role, v.accessLevel, Ngo);
      assert v == Registered(0, body, role.value, hash).(password := body.password.value);
    }
    res := Save(db, doc, hash);
  }
}

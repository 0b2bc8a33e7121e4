/** The account handlers of backend/routes/auth.js over an in-memory user store: registration,
    login and the profile update. Password hashing, comparison and token signing are foreign calls
    and come in as function parameters. */
module AuthRoutes {
  import opened Wrappers

  /** A stored user document. `credential` is what the user model keeps for the password (its save
      hook is not part of this model, so the hash is a parameter of `Register`). */
  datatype User = User(
    id: string,
    username: string,
    email: string,
    credential: string,
    firstName: Option<string>,
    lastName: Option<string>,
    phone: Option<string>,
    name: Option<string>,
    addresses: seq<JsValue>)

  /** The `user` object of the register and login replies. */
  datatype PublicUser = PublicUser(
    id: string,
    username: string,
    email: string,
    firstName: Option<string>,
    lastName: Option<string>,
    phone: Option<string>)

  /** The reply of a successful register or login. */
  datatype Session = Session(message: string, token: string, user: PublicUser)

  /** The register request body; `addresses` defaults to `[]`. */
  datatype Registration = Registration(
    username: Option<string>,
    email: Option<string>,
    password: Option<string>,
    firstName: Option<string>,
    lastName: Option<string>,
    phone: Option<string>,
    addresses: Option<seq<JsValue>>)

  /** The reply's view of a user: every field but the password. */
  function PublicView(u: User): PublicUser {
    PublicUser(u.id, u.username, u.email, u.firstName, u.lastName, u.phone)
  }

  /** `User.findOne(query)`: the first stored user, in insertion order, that satisfies `p`. */
  function FirstWhere(users: seq<User>, p: User -> bool): (r: Option<nat>)
    ensures r.Some? ==> r.value < |users| && p(users[r.value])
    ensures r.Some? ==> forall j :: 0 <= j < r.value ==> !p(users[j])
    ensures r.None? <==> forall j :: 0 <= j < |users| ==> !p(users[j])
  {
    if users == [] then None
    else
      match FirstWhere(users[..|users| - 1], p)
      case Some(k) => Some(k)
      case None => if p(users[|users| - 1]) then Some(|users| - 1) else None
  }

  /** Register's uniqueness query `{ $or: [{ username }, { email }] }`. */
  predicate ClashesAsWritten(u: User, username: string, email: string) {
    u.username == username || u.email == email
  }

  /** Login's query `{ $or: [{ username }, { email: username }] }`. */
  predicate AnswersTo(u: User, identifier: string) {
    u.username == identifier || u.email == identifier
  }

  /** The three fields register insists on are all present and non-empty. */
  predicate HasRequiredFields(req: Registration) {
    Truthy(req.username) && Truthy(req.email) && Truthy(req.password)
  }

  /** Why register refuses `req` against the stored `users`, if it does. */
  function RegisterError(users: seq<User>, req: Registration): (e: Option<string>)
    ensures !HasRequiredFields(req) ==> e == Some("All fields are required")
    ensures HasRequiredFields(req) && |req.password.value| < 6 ==>
      e == Some("Password must be at least 6 characters long")
    ensures e.None? <==>
      HasRequiredFields(req) && |req.password.value| >= 6
      && forall u :: u in users ==> u.username != req.username.value && u.email != req.email.value
    ensures e.Some? && HasRequiredFields(req) && |req.password.value| >= 6 ==>
      e == Some("Username or email already exists")
  {
    if !HasRequiredFields(req) then Some("All fields are required")
    else if |req.password.value| < 6 then Some("Password must be at least 6 characters long")
    else if FirstWhere(users, u => ClashesAsWritten(u, req.username.value, req.email.value)).Some? then
      Some("Username or email already exists")
    else None
  }

  /** The user document register creates; only meaningful once the required fields are present. */
  function NewUser(req: Registration, id: string, hash: string -> string): User
    requires HasRequiredFields(req)
  {
    User(id, req.username.value, req.email.value, hash(req.password.value),
         req.firstName, req.lastName, req.phone, None, req.addresses.GetOr([]))
  }

  /** `POST /login`. `passwordMatches(candidate, credential)` is the user model's `comparePassword`;
      `generateToken` signs a user id. */
  function Login(users: seq<User>, username: Option<string>, password: Option<string>,
                 passwordMatches: (string, string) -> bool, generateToken: string -> string)
    : (r: Response<Session>)
    ensures !(Truthy(username) && Truthy(password)) ==>
      r == Failure(400, "Username and password are required")
    ensures r.Success? ==>
      exists i :: 0 <= i < |users| && r.value.user == PublicView(users[i])
        && AnswersTo(users[i], username.value) && passwordMatches(password.value, users[i].credential)
        && r.value.token == generateToken(users[i].id)
    ensures r.Failure? ==> r.status == 400 || r == Failure(401, "Invalid credentials")
  {
    if !Truthy(username) || !Truthy(password) then Failure(400, "Username and password are required")
    else
      match FirstWhere(users, u => AnswersTo(u, username.value))
      case None => Failure(401, "Invalid credentials")
      case Some(k) =>
        if !passwordMatches(password.value, users[k].credential) then Failure(401, "Invalid credentials")
        else Success(Session("Login successful", generateToken(users[k].id), PublicView(users[k])))
  }

  /** `PUT /me`'s three assignments: each of name, email and addresses takes the request's value
      when that is truthy (an array always is) and keeps the stored one otherwise. */
  function ProfileUpdate(u: User, name: Option<string>, email: Option<string>,
                         addresses: Option<seq<JsValue>>): (v: User)
    ensures v.(name := u.name, email := u.email, addresses := u.addresses) == u
    ensures Truthy(name) ==> v.name == name
    ensures !Truthy(name) ==> v.name == u.name
    ensures Truthy(email) ==> v.email == email.value
    ensures !Truthy(email) ==> v.email == u.email
    ensures addresses.Some? ==> v.addresses == addresses.value
    ensures addresses.None? ==> v.addresses == u.addresses
  {
    var u1 := u.(name := if Truthy(name) then name else u.name);
    var u2 := u1.(email := if Truthy(email) then email.value else u1.email);
    u2.(addresses := if addresses.Some? then addresses.value else u2.addresses)
  }

  /** No two users share a username and no two share an email. */
  predicate UniqueLogins(users: seq<User>) {
    forall i, j :: 0 <= i < j < |users| ==>
      users[i].username != users[j].username && users[i].email != users[j].email
  }

  /** The users collection. */
  class UserStore {
    var users: seq<User>

    /** Every user has its own id. */
    predicate Valid()
      reads this
    {
      forall i, j :: 0 <= i < j < |users| ==> users[i].id != users[j].id
    }

    constructor ()
      ensures users == [] && Valid()
    {
      users := [];
    }

    /** `POST /register`. `newId` is the id the database assigns to the new document. */
    method Register(req: Registration, newId: string, hash: string -> string,
                    generateToken: string -> string)
      returns (r: Response<Session>)
      requires Valid()
      requires forall u :: u in users ==> u.id != newId
      modifies this
      ensures Valid()
      ensures RegisterError(old(users), req).Some? ==>
        r == Failure(400, RegisterError(old(users), req).value) && users == old(users)
      ensures RegisterError(old(users), req).None? ==>
        users == old(users) + [NewUser(req, newId, hash)]
        && r == Success(Session("User registered successfully", generateToken(newId),
                                PublicView(NewUser(req, newId, hash))))
    {
      if !Truthy(req.username) || !Truthy(req.email) || !Truthy(req.password) {
        return Failure(400, "All fields are required");
      }
      if |req.password.value| < 6 {
        return Failure(400, "Password must be at least 6 characters long");
      }
      var existing := FirstWhere(users, u => ClashesAsWritten(u, req.username.value, req.email.value));
      if existing.Some? {
        return Failure(400, "Username or email already exists");
      }
      var user := NewUser(req, newId, hash);
      users := users + [user];
      r := Success(Session("User registered successfully", generateToken(newId), PublicView(user)));
    }

    /** `PUT /me` for the signed-in user `userId`: the document is updated in place and sent back
        whole. */
    method UpdateProfile(userId: string, name: Option<string>, email: Option<string>,
                         addresses: Option<seq<JsValue>>)
      returns (r: Response<User>)
      requires Valid()
      modifies this
      ensures Valid()
      ensures FirstWhere(old(users), (u: User) => u.id == userId).None? ==>
        r == Failure(404, "User not found") && users == old(users)
      ensures FirstWhere(old(users), (u: User) => u.id == userId).Some? ==>
        var k := FirstWhere(old(users), (u: User) => u.id == userId).value;
        users == old(users)[k := ProfileUpdate(old(users)[k], name, email, addresses)]
        && r == Success(users[k])
    {
      var found := FirstWhere(users, (u: User) => u.id == userId);
      if found.None? {
        return Failure(404, "User not found");
      }
      var k := found.value;
      users := users[k := ProfileUpdate(users[k], name, email, addresses)];
      r := Success(users[k]);
    }
  }

  // ---------------------------------------------------------------------------------------------
  // Properties

  /** A successful register grows the store by exactly one user, who carries the request's
      username, email and hashed password and whose reply leaves the password out. */
  lemma RegisterAddsOne(users: seq<User>, req: Registration, id: string, hash: string -> string)
    requires RegisterError(users, req).None?
    ensures |users + [NewUser(req, id, hash)]| == |users| + 1
    ensures NewUser(req, id, hash).username == req.username.value
    ensures NewUser(req, id, hash).email == req.email.value
    ensures NewUser(req, id, hash).credential == hash(req.password.value)
    ensures forall u :: u in users ==> !ClashesAsWritten(u, req.username.value, req.email.value)
  {
  }

  /** Register, as written, keeps usernames unique and emails unique. */
  lemma RegisterKeepsUniqueLogins(users: seq<User>, req: Registration, id: string, hash: string -> string)
    requires UniqueLogins(users)
    requires RegisterError(users, req).None?
    ensures UniqueLogins(users + [NewUser(req, id, hash)])
  {
    var all := users + [NewUser(req, id, hash)];
    forall i, j | 0 <= i < j < |all|
      ensures all[i].username != all[j].username && all[i].email != all[j].email
    {
      if j == |users| {
        assert all[i] in users;
      } else {
        assert all[i] == users[i] && all[j] == users[j];
      }
    }
  }

  /** Login finds a user by username or by email, and an unknown identifier gets the same reply as
      a wrong password. */
  lemma UnknownUserLikeWrongPassword(users: seq<User>, identifier: string, password: string,
                                     passwordMatches: (string, string) -> bool,
                                     generateToken: string -> string)
    requires identifier != "" && password != ""
    ensures (forall u :: u in users ==> !AnswersTo(u, identifier)) ==>
      Login(users, Some(identifier), Some(password), passwordMatches, generateToken)
        == Failure(401, "Invalid credentials")
    ensures (forall i :: 0 <= i < |users| && AnswersTo(users[i], identifier) ==>
               !passwordMatches(password, users[i].credential)) ==>
      Login(users, Some(identifier), Some(password), passwordMatches, generateToken)
        == Failure(401, "Invalid credentials")
  {
    if forall u :: u in users ==> !AnswersTo(u, identifier) {
      assert forall j :: 0 <= j < |users| ==> users[j] in users;
    }
  }

  /** Logging in with a user's username or email reaches that user when no earlier user answers
      to the same identifier. */
  lemma LoginReachesFirstAnswering(users: seq<User>, k: nat, identifier: string, password: string,
                                   passwordMatches: (string, string) -> bool,
                                   generateToken: string -> string)
    requires identifier != "" && password != ""
    requires k < |users| && AnswersTo(users[k], identifier)
    requires forall j :: 0 <= j < k ==> !AnswersTo(users[j], identifier)
    requires passwordMatches(password, users[k].credential)
    ensures Login(users, Some(identifier), Some(password), passwordMatches, generateToken)
      == Success(Session("Login successful", generateToken(users[k].id), PublicView(users[k])))
  {
    var found := FirstWhere(users, u => AnswersTo(u, identifier));
    assert found.Some? by {
      assert !(forall j :: 0 <= j < |users| ==> !AnswersTo(users[j], identifier));
    }
    assert found.value == k;
  }

  /** Register as written accepts a username that is already some user's email; logging in with
      that username then reaches the older user, so the new user's own password is refused. */
  lemma RegisteredUserLockedOut()
    ensures
      var older := User("1", "bob", "alice@example.com", "bobsecret", None, None, None, None, []);
      var req := Registration(Some("alice@example.com"), Some("alice@mail.example"), Some("alicesecret"),
                              None, None, None, None);
      var after := [older] + [NewUser(req, "2", s => s)];
      && RegisterError([older], req).None?
      && Login(after, Some("alice@example.com"), Some("alicesecret"), (p, c) => p == c, id => id)
           == Failure(401, "Invalid credentials")
  {
    var older := User("1", "bob", "alice@example.com", "bobsecret", None, None, None, None, []);
    var req := Registration(Some("alice@example.com"), Some("alice@mail.example"), Some("alicesecret"),
                            None, None, None, None);
    var after := [older] + [NewUser(req, "2", s => s)];
    assert !ClashesAsWritten(older, req.username.value, req.email.value);
    assert forall u :: u in [older] ==> u == older;
    assert FirstWhere(after, u => AnswersTo(u, "alice@example.com")) == Some(0) by {
      assert AnswersTo(after[0], "alice@example.com");
    }
    assert "alicesecret" != "bobsecret";
  }

  /** The uniqueness query register evidently means: neither new login may already answer for
      any stored user, whether as a username or as an email. */
  predicate ClashesCorrected(u: User, username: string, email: string) {
    AnswersTo(u, username) || AnswersTo(u, email)
  }

  /** `RegisterError` with the corrected uniqueness query. */
  function RegisterErrorCorrected(users: seq<User>, req: Registration): (e: Option<string>)
    ensures !HasRequiredFields(req) ==> e == Some("All fields are required")
    ensures HasRequiredFields(req) && |req.password.value| < 6 ==>
      e == Some("Password must be at least 6 characters long")
    ensures e.None? <==>
      HasRequiredFields(req) && |req.password.value| >= 6
      && forall u :: u in users ==> !ClashesCorrected(u, req.username.value, req.email.value)
  {
    if !HasRequiredFields(req) then Some("All fields are required")
    else if |req.password.value| < 6 then Some("Password must be at least 6 characters long")
    else if FirstWhere(users, u => ClashesCorrected(u, req.username.value, req.email.value)).Some? then
      Some("Username or email already exists")
    else None
  }

  /** With the corrected query, a user that register accepts can log in right away with either
      their username or their email and their password. */
  lemma RegisterThenLoginCorrected(users: seq<User>, req: Registration, id: string,
                                   hash: string -> string,
                                   passwordMatches: (string, string) -> bool,
                                   generateToken: string -> string, identifier: string)
    requires RegisterErrorCorrected(users, req).None?
    requires forall p :: passwordMatches(p, hash(p))
    requires identifier == req.username.value || identifier == req.email.value
    ensures Login(users + [NewUser(req, id, hash)], Some(identifier), req.password,
                  passwordMatches, generateToken)
      == Success(Session("Login successful", generateToken(id), PublicView(NewUser(req, id, hash))))
  {
    var all := users + [NewUser(req, id, hash)];
    forall j | 0 <= j < |users|
      ensures !AnswersTo(all[j], identifier)
    {
      assert all[j] == users[j] && users[j] in users;
    }
    LoginReachesFirstAnswering(all, |users|, identifier, req.password.value, passwordMatches, generateToken);
  }
}

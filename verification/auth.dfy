/** controllers/AuthController.js and the `generateToken` method of models/User.js: signing up
    and signing in, as transitions of the world. */
module AuthController {
  import opened Base
  import opened Text
  import opened Externals
  import opened Store
  import opened Http
  import opened Validation

  const UserExists: string := "User already exists"
  const UserCreated: string := "User created successfully"
  const BadCredentials: string := "Invalid email or password"

  /** `user.generateToken()`: the JWT of `{id, isAdmin}` and nothing else (no expiry). */
  function GenerateToken(env: Env, u: User): (token: string)
    ensures Lawful(env) ==> env.verify(token) == Some(Claims(u.id, u.isAdmin))
    ensures Lawful(env) ==> ' ' !in token && token != ""
  {
    env.sign(Claims(u.id, u.isAdmin))
  }

  /** `User.findOne({email})`: the first stored user whose email matches. The schema's `trim`
      setter runs on the query value as it ran on the stored one, so the two are compared
      trimmed. */
  function FindByEmail(users: seq<User>, email: string): (r: Option<nat>)
    ensures r.Some? ==> r.value < |users| && Trim(users[r.value].email) == Trim(email)
    ensures r.Some? ==> forall j :: 0 <= j < r.value ==> Trim(users[j].email) != Trim(email)
    ensures r.None? <==> forall i :: 0 <= i < |users| ==> Trim(users[i].email) != Trim(email)
  {
    FindFirst(users, (u: User) => Trim(u.email) == Trim(email))
  }

  /** Emails that differ only in surrounding whitespace find the same user. */
  lemma FindByEmailIgnoresPadding(users: seq<User>, a: string, b: string)
    requires Trim(a) == Trim(b)
    ensures FindByEmail(users, a) == FindByEmail(users, b)
  {
  }

  /** The user a successful signup stores: the body's raw username and email, and the hash of
      the raw password under the generated salt. */
  function SignupUser(env: Env, f: SignupForm, id: string, salt: string): User {
    NewUser(id, f.username, f.email, env.hash(f.password, salt))
  }

  /** `signup`. `id` is the ObjectId the new document gets and `salt` is `bcrypt.genSalt(10)`. */
  function Signup(env: Env, req: Request, w: World, id: string, salt: string): (o: Outcome)
    ensures !SignupAcceptable(env, req.body) ==>
      o.response.status == 400 && o.response.payload.Message? && o.world == w
    ensures ValidateSignupUser(env, req.body).Failure? ==>
      o.response.payload == Message(IssueMessage(ValidateSignupUser(env, req.body).error))
    ensures SignupAcceptable(env, req.body) && FindByEmail(w.users, Raw(req.body, "email")).Some? ==>
      o.response == Response(400, Message(UserExists)) && o.world == w
    ensures o.response.status == 201 <==>
      && ValidateSignupUser(env, req.body).Success?
      && FindByEmail(w.users, Raw(req.body, "email")).None?
      && !ClashesWith(w.users, SignupUser(env, ValidateSignupUser(env, req.body).value, id, salt))
    ensures o.response.status == 201 ==>
      && o.response.payload == Message(UserCreated)
      && o.world == w.(users := w.users + [SignupUser(env, ValidateSignupUser(env, req.body).value, id, salt)])
    ensures o.response.status != 201 ==> o.world == w
    ensures UniqueIndexes(w) ==> UniqueIndexes(o.world)
  {
    match ValidateSignupUser(env, req.body)
    case Failure(i) => Outcome(Response(400, Message(IssueMessage(i))), w)
    case Success(f) =>
      if FindByEmail(w.users, f.email).Some? then Outcome(Response(400, Message(UserExists)), w)
      else
        match InsertUser(w, SignupUser(env, f, id, salt))
        case None => Crash(w, "E11000 duplicate key error")
        case Some(w') => Outcome(Response(201, Message(UserCreated)), w')
  }

  /** The user added by a successful signup carries the body's fields, the hashed password
      (which the raw password matches), and the schema defaults: never an administrator,
      never verified, the default avatar, no bio. */
  lemma SignupStoresNewUser(env: Env, req: Request, w: World, id: string, salt: string)
    requires Lawful(env)
    requires Signup(env, req, w, id, salt).response.status == 201
    ensures var users := Signup(env, req, w, id, salt).world.users;
            var u := users[|users| - 1];
            && |users| == |w.users| + 1
            && u.id == id
            && Some(u.username.value) == StrField(req.body, "username")
            && Some(u.email) == StrField(req.body, "email")
            && u.password == Some(env.hash(Raw(req.body, "password"), salt))
            && env.compare(Raw(req.body, "password"), u.password.value)
            && !u.isAdmin && !u.isVerified
            && u.profilePic == DefaultProfilePic && u.bio.None?
  {
  }

  /** The controller looks only at the email: a valid body whose username is taken but whose
      email is new is not refused with "User already exists"; the unique index on `username`
      makes the save fail instead (500). */
  lemma SignupChecksOnlyEmail(env: Env, req: Request, w: World, id: string, salt: string, k: nat)
    requires SignupAcceptable(env, req.body)
    requires FindByEmail(w.users, Raw(req.body, "email")).None?
    requires k < |w.users| && w.users[k].username == StrField(req.body, "username")
    ensures Signup(env, req, w, id, salt).response.status == 500
    ensures Signup(env, req, w, id, salt).world == w
  {
    var f := ValidateSignupUser(env, req.body).value;
    assert ClashesWith(w.users, SignupUser(env, f, id, salt));
  }

  /** Signing up adds no administrator. */
  lemma SignupKeepsAdmins(env: Env, req: Request, w: World, id: string, salt: string)
    ensures AdminIds(Signup(env, req, w, id, salt).world.users) == AdminIds(w.users)
  {
    var o := Signup(env, req, w, id, salt);
    if o.response.status == 201 {
      var u := SignupUser(env, ValidateSignupUser(env, req.body).value, id, salt);
      AppendNonAdmin(w.users, u);
    }
  }

  /** Appending a non-administrator leaves the administrator ids as they were. */
  lemma AppendNonAdmin(users: seq<User>, u: User)
    requires !u.isAdmin
    ensures AdminIds(users + [u]) == AdminIds(users)
  {
    var s := users + [u];
    forall x | x in AdminIds(s) ensures x in AdminIds(users) {
      var i :| 0 <= i < |s| && s[i].isAdmin && s[i].id == x;
      assert i < |users| && users[i] == s[i];
    }
    forall x | x in AdminIds(users) ensures x in AdminIds(s) {
      var i :| 0 <= i < |users| && users[i].isAdmin && users[i].id == x;
      assert s[i] == users[i];
    }
  }

  /** `signin`. It never writes to the world. */
  function Signin(env: Env, req: Request, w: World): (o: Outcome)
    ensures o.world == w
    ensures ValidateSignInUser(env, req.body).Failure? ==>
      o.response == Response(400, Message(IssueMessage(ValidateSignInUser(env, req.body).error)))
    ensures ValidateSignInUser(env, req.body).Success? && FindByEmail(w.users, Raw(req.body, "email")).None? ==>
      o.response == Response(400, Message(BadCredentials))
    ensures o.response.status == 200 <==>
      && ValidateSignInUser(env, req.body).Success?
      && FindByEmail(w.users, Raw(req.body, "email")).Some?
      && var u := w.users[FindByEmail(w.users, Raw(req.body, "email")).value];
         u.password.Some? && env.compare(Raw(req.body, "password"), u.password.value)
    ensures o.response.status == 200 ==>
      var u := w.users[FindByEmail(w.users, Raw(req.body, "email")).value];
      o.response.payload == SignedIn(GenerateToken(env, u), u.id, u.profilePic, u.isAdmin)
  {
    match ValidateSignInUser(env, req.body)
    case Failure(i) => Outcome(Response(400, Message(IssueMessage(i))), w)
    case Success(f) =>
      match FindByEmail(w.users, f.email)
      case None => Outcome(Response(400, Message(BadCredentials)), w)
      case Some(k) =>
        var u := w.users[k];
        match u.password
        case None => Crash(w, "Illegal arguments: string, object")
        case Some(hashed) =>
          if !env.compare(f.password, hashed) then Outcome(Response(400, Message(BadCredentials)), w)
          else Outcome(Response(200, SignedIn(GenerateToken(env, u), u.id, u.profilePic, u.isAdmin)), w)
  }

  /** An unknown email and a wrong password are answered identically, so a caller cannot tell
      which one it got wrong. */
  lemma SigninFailuresIndistinguishable(env: Env, req1: Request, w1: World, req2: Request, w2: World)
    requires ValidateSignInUser(env, req1.body).Success? && ValidateSignInUser(env, req2.body).Success?
    requires FindByEmail(w1.users, Raw(req1.body, "email")).None?
    requires FindByEmail(w2.users, Raw(req2.body, "email")).Some?
    requires var u := w2.users[FindByEmail(w2.users, Raw(req2.body, "email")).value];
             u.password.Some? && !env.compare(Raw(req2.body, "password"), u.password.value)
    ensures Signin(env, req1, w1).response == Signin(env, req2, w2).response
    ensures Signin(env, req1, w1).response == Response(400, Message(BadCredentials))
  {
  }

  /** A successful signin hands out a token that verifies to the user's id and admin flag. */
  lemma SigninTokenIdentifiesUser(env: Env, req: Request, w: World)
    requires Lawful(env)
    requires Signin(env, req, w).response.status == 200
    ensures var p := Signin(env, req, w).response.payload;
            var u := w.users[FindByEmail(w.users, Raw(req.body, "email")).value];
            && env.verify(p.token) == Some(Claims(p.id, p.isAdmin))
            && p.id == u.id && p.isAdmin == u.isAdmin
            && Trim(u.email) == Trim(Raw(req.body, "email"))
  {
  }
}

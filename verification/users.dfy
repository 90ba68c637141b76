/** controllers/UsersController.js: listing, reading, updating and counting users. */
module UsersController {
  import opened Base
  import opened Externals
  import opened Store
  import opened Http
  import opened Validation
  import Guards

  const UserNotFound: string := "User not found"

  /** `User.find().select('-password')`: every user, in stored order, without the password. */
  function PublicAll(users: seq<User>): (r: seq<PublicUser>)
    ensures |r| == |users|
    ensures forall i :: 0 <= i < |users| ==>
      && r[i].id == users[i].id && r[i].username == users[i].username
      && r[i].email == users[i].email && r[i].profilePic == users[i].profilePic
      && r[i].bio == users[i].bio && r[i].isAdmin == users[i].isAdmin
      && r[i].isVerified == users[i].isVerified
  {
    seq(|users|, i requires 0 <= i < |users| => Public(users[i]))
  }

  /** `getUsers`. */
  function GetUsers(w: World): (o: Outcome)
    ensures o.world == w && o.response.status == 200
    ensures o.response.payload.Users? && |o.response.payload.users| == |w.users|
    ensures forall i :: 0 <= i < |w.users| ==> o.response.payload.users[i] == Public(w.users[i])
  {
    Outcome(Response(200, Users(PublicAll(w.users))), w)
  }

  /** `User.findById(id)`: the stored user whose id `id` casts to, hex case ignored. */
  function FindById(users: seq<User>, id: string): (r: Option<nat>)
    ensures r.Some? ==> r.value < |users| && SameObjectId(users[r.value].id, id)
    ensures r.None? <==> forall i :: 0 <= i < |users| ==> !SameObjectId(users[i].id, id)
  {
    FindFirst(users, (u: User) => SameObjectId(u.id, id))
  }

  /** `getUserById`. Express always binds `:id` on this route. An id that does not cast to
      an ObjectId makes `findById` throw a CastError (500). */
  function GetUserById(env: Env, req: Request, w: World): (o: Outcome)
    requires req.pathId.Some?
    ensures o.world == w
    ensures !env.isObjectId(req.pathId.value) ==> o.response.status == 500
    ensures env.isObjectId(req.pathId.value) && FindById(w.users, req.pathId.value).None? ==>
      o.response == Response(404, Message(UserNotFound))
    ensures o.response.status == 200 <==>
      env.isObjectId(req.pathId.value) && exists i :: 0 <= i < |w.users| && SameObjectId(w.users[i].id, req.pathId.value)
    ensures o.response.status == 200 ==>
      exists i :: 0 <= i < |w.users| && SameObjectId(w.users[i].id, req.pathId.value)
                  && o.response.payload == OneUser(Public(w.users[i]))
  {
    var id := req.pathId.value;
    if !env.isObjectId(id) then Crash(w, "CastError")
    else
      match FindById(w.users, id)
      case None => Outcome(Response(404, Message(UserNotFound)), w)
      case Some(k) => Outcome(Response(200, OneUser(Public(w.users[k]))), w)
  }

  /** What `$set: {field: value}` leaves in a stored field; `value` is `None` when the body
      left the field undefined. */
  function SetField(policy: SetPolicy, stored: Option<string>, value: Option<string>): (r: Option<string>)
    ensures value.Some? ==> r == value
    ensures value.None? && policy == StripUndefined ==> r == stored
    ensures value.None? && policy == StoreNull ==> r.None?
  {
    if value.Some? then value
    else if policy == StripUndefined then stored
    else None
  }

  /** The password step of `updateUser`: a truthy password is replaced by its hash under the
      salt; an absent one stays absent. */
  function HashIfPresent(env: Env, password: Option<string>, salt: string): (r: Option<string>)
    ensures r.None? <==> password.None?
    ensures Guards.Truthy(password) ==> r == Some(env.hash(password.value, salt))
  {
    if Guards.Truthy(password) then Some(env.hash(password.value, salt)) else password
  }

  /** The stored user after the update: a supplied username or bio is written as sent, a
      supplied password as its hash, and nothing `updateUser` cannot write changes. */
  function Updated(env: Env, u: User, f: UserUpdateForm, salt: string): (r: User)
    ensures SameUnwritable(r, u)
    ensures f.username.Some? ==> r.username == f.username
    ensures f.bio.Some? ==> r.bio == f.bio
    ensures Guards.Truthy(f.password) ==> r.password == Some(env.hash(f.password.value, salt))
    ensures env.setPolicy == StripUndefined ==>
      && (f.username.None? ==> r.username == u.username)
      && (f.password.None? ==> r.password == u.password)
      && (f.bio.None? ==> r.bio == u.bio)
  {
    u.(username := SetField(env.setPolicy, u.username, f.username),
       password := SetField(env.setPolicy, u.password, HashIfPresent(env, f.password, salt)),
       bio := SetField(env.setPolicy, u.bio, f.bio))
  }

  /** Users that agree on everything `updateUser` cannot write. */
  predicate SameUnwritable(a: User, b: User) {
    a.id == b.id && a.email == b.email && a.profilePic == b.profilePic
    && a.isAdmin == b.isAdmin && a.isVerified == b.isVerified
  }

  /** `updateUser`. `salt` is `bcrypt.genSalt(10)`. A missing document is answered 200 with
      `null`; a new username that another user holds breaks the unique index (500). The id
      is looked up as an ObjectId, so the case of its hex digits does not matter. */
  function UpdateUser(env: Env, req: Request, w: World, salt: string): (o: Outcome)
    requires req.pathId.Some?
    ensures ValidateUpdateUser(env, req.body).Failure? <==> o.response.status == 400
    ensures o.response.status == 400 ==>
      o.response.payload == Message(IssueMessage(ValidateUpdateUser(env, req.body).error)) && o.world == w
    ensures UpdateUserAcceptable(req.body) && env.isObjectId(req.pathId.value)
            && FindById(w.users, req.pathId.value).None? ==>
      o.response == Response(200, NoDocument) && o.world == w
    ensures o.world.categories == w.categories && o.world.posts == w.posts
    ensures o.world.assets == w.assets && o.world.staged == w.staged
    ensures |o.world.users| == |w.users|
    ensures forall i :: 0 <= i < |w.users| ==> SameUnwritable(o.world.users[i], w.users[i])
    ensures forall i :: 0 <= i < |w.users| && !SameObjectId(w.users[i].id, req.pathId.value) ==>
      o.world.users[i] == w.users[i]
    ensures UpdateUserAcceptable(req.body) && !env.isObjectId(req.pathId.value) ==>
      o.response.status == 500 && o.world == w
    ensures o.response.payload.OneUser? <==>
      && UpdateUserAcceptable(req.body) && env.isObjectId(req.pathId.value)
      && FindById(w.users, req.pathId.value).Some?
      && var k := FindById(w.users, req.pathId.value).value;
         UsernameFree(w.users, k, Updated(env, w.users[k], ValidateUpdateUser(env, req.body).value, salt).username)
    ensures UpdateUserAcceptable(req.body) && env.isObjectId(req.pathId.value)
            && FindById(w.users, req.pathId.value).Some? ==>
      var k := FindById(w.users, req.pathId.value).value;
      var u := Updated(env, w.users[k], ValidateUpdateUser(env, req.body).value, salt);
      if UsernameFree(w.users, k, u.username) then
        o.response == Response(200, OneUser(Public(u))) && o.world == w.(users := w.users[k := u])
      else
        o.response.status == 500 && o.world == w
    ensures o.response.payload.OneUser? ==>
      ValidateUpdateUser(env, req.body).Success? && FindById(w.users, req.pathId.value).Some?
    ensures o.response.payload.OneUser? ==>
      var k := FindById(w.users, req.pathId.value).value;
      var f := ValidateUpdateUser(env, req.body).value;
      && o.world.users[k] == Updated(env, w.users[k], f, salt)
      && o.response.payload.user == Public(o.world.users[k])
    ensures UniqueIndexes(w) ==> UniqueIndexes(o.world)
  {
    match ValidateUpdateUser(env, req.body)
    case Failure(i) => Outcome(Response(400, Message(IssueMessage(i))), w)
    case Success(f) =>
      var id := req.pathId.value;
      if !env.isObjectId(id) then Crash(w, "CastError")
      else
        match FindById(w.users, id)
        case None => Outcome(Response(200, NoDocument), w)
        case Some(k) =>
          var u := Updated(env, w.users[k], f, salt);
          match ReplaceUser(w, k, u)
          case None => Crash(w, "E11000 duplicate key error")
          case Some(w') => Outcome(Response(200, OneUser(Public(u))), w')
  }

  /** A supplied password is stored hashed, and the supplied password matches it. */
  lemma UpdateUserHashesPassword(env: Env, req: Request, w: World, salt: string)
    requires Lawful(env) && req.pathId.Some?
    requires UpdateUser(env, req, w, salt).response.payload.OneUser?
    requires StrField(req.body, "password").Some?
    ensures var k := FindById(w.users, req.pathId.value).value;
            var p := StrField(req.body, "password").value;
            && UpdateUser(env, req, w, salt).world.users[k].password == Some(env.hash(p, salt))
            && env.compare(p, env.hash(p, salt))
  {
    var f := ValidateUpdateUser(env, req.body).value;
    TrimmedPasswordIsTruthy(req.body);
  }

  /** A password that passed validation is a non-empty string, so the truthiness test holds. */
  lemma TrimmedPasswordIsTruthy(b: Body)
    requires UpdateUserAcceptable(b) && StrField(b, "password").Some?
    ensures Guards.Truthy(StrField(b, "password"))
  {
    assert |Text.Trim(Raw(b, "password"))| >= 8;
  }

  /** Fields the body leaves out: kept when Mongoose strips undefined keys, cleared to `null`
      when it sends them. */
  lemma UpdateUserOmittedFields(env: Env, req: Request, w: World, salt: string)
    requires req.pathId.Some?
    requires UpdateUser(env, req, w, salt).response.payload.OneUser?
    requires Get(req.body, "bio").None?
    ensures var k := FindById(w.users, req.pathId.value).value;
            var after := UpdateUser(env, req, w, salt).world.users[k];
            && (env.setPolicy == StripUndefined ==> after.bio == w.users[k].bio)
            && (env.setPolicy == StoreNull ==> after.bio.None?)
  {
  }

  /** Updating a profile never adds or removes an administrator. */
  lemma UpdateUserKeepsAdmins(env: Env, req: Request, w: World, salt: string)
    requires req.pathId.Some?
    ensures AdminIds(UpdateUser(env, req, w, salt).world.users) == AdminIds(w.users)
  {
    SameAdmins(w.users, UpdateUser(env, req, w, salt).world.users);
  }

  /** Pointwise agreement on id and admin flag gives the same administrator ids. */
  lemma SameAdmins(a: seq<User>, b: seq<User>)
    requires |a| == |b|
    requires forall i :: 0 <= i < |a| ==> SameUnwritable(b[i], a[i])
    ensures AdminIds(a) == AdminIds(b)
  {
    forall x | x in AdminIds(a) ensures x in AdminIds(b) {
      var i :| 0 <= i < |a| && a[i].isAdmin && a[i].id == x;
      assert SameUnwritable(b[i], a[i]);
    }
    forall x | x in AdminIds(b) ensures x in AdminIds(a) {
      var i :| 0 <= i < |b| && b[i].isAdmin && b[i].id == x;
      assert SameUnwritable(b[i], a[i]);
    }
  }

  /** `getUsersCount`. */
  function GetUsersCount(w: World): (o: Outcome)
    ensures o.world == w && o.response.status == 200
    ensures o.response.payload == Count(|w.users|)
  {
    Outcome(Response(200, Count(|w.users|)), w)
  }
}

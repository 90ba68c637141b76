/** Journeys across several requests: what a client that signs up can do next. */
module Scenarios {
  import opened Base
  import opened Text
  import opened Externals
  import opened Store
  import opened Http
  import opened Validation
  import opened Guards
  import opened AuthController
  import UsersController
  import CategoryController
  import Routes

  /** After a successful signup, the same email and password sign in: the answer names the new
      user, who is not an administrator and has the default avatar, and its token verifies to
      exactly that identity. */
  lemma SignupThenSignin(env: Env, w: World, signup: Request, id: string, salt: string, signin: Request)
    requires Lawful(env)
    requires Signup(env, signup, w, id, salt).response.status == 201
    requires CarriesCredentials(signin.body, Raw(signup.body, "email"), Raw(signup.body, "password"))
    ensures var o := Signin(env, signin, Signup(env, signup, w, id, salt).world);
            && o.response.status == 200
            && o.response.payload.id == id
            && !o.response.payload.isAdmin
            && o.response.payload.profilePic == DefaultProfilePic
            && o.response.payload.token == env.sign(Claims(id, false))
            && env.verify(o.response.payload.token) == Some(Claims(id, false))
  {
    var f := ValidateSignupUser(env, signup.body).value;
    var u := SignupUser(env, f, id, salt);
    var w1 := Signup(env, signup, w, id, salt).world;
    assert w1.users == w.users + [u];
    SignupCredentialsPassSignin(env, signup.body, f, signin.body);
    NewEmailFoundLast(w.users, u);
    SigninOfStoredUser(env, signin, w1, |w.users|, f.email, f.password, salt);
  }

  /** A user appended under an email nobody else holds is the one `findOne` finds. */
  lemma NewEmailFoundLast(users: seq<User>, u: User)
    requires FindByEmail(users, u.email).None?
    ensures FindByEmail(users + [u], u.email) == Some(|users|)
  {
    var s := users + [u];
    assert s[|users|] == u;
    forall i | 0 <= i < |users|
      ensures Trim(s[i].email) != Trim(u.email)
    {
      assert s[i] == users[i];
    }
  }

  /** Sign-in for a stored user whose password hash was made from the password sent. */
  lemma SigninOfStoredUser(env: Env, signin: Request, w: World, k: nat, email: string, password: string, salt: string)
    requires Lawful(env)
    requires ValidateSignInUser(env, signin.body) == Success(SigninForm(email, password))
    requires FindByEmail(w.users, email) == Some(k)
    requires w.users[k].password == Some(env.hash(password, salt))
    ensures Signin(env, signin, w).response
         == Response(200, SignedIn(GenerateToken(env, w.users[k]), w.users[k].id, w.users[k].profilePic, w.users[k].isAdmin))
  {
    assert env.compare(password, env.hash(password, salt));
  }

  /** The token a new user receives opens that user's own profile for update and is refused
      (403, with the caller's address) on category creation. */
  lemma NewUserTokenReach(env: Env, w: World, id: string, req: Request, draws: Routes.Draws)
    requires Lawful(env)
    requires req.authorization == Some("Bearer " + env.sign(Claims(id, false)))
    requires req.pathId == Some(id) && env.isObjectId(id)
    ensures Routes.Serve(env, Routes.UpdateProfile, req, w, draws)
         == UsersController.UpdateUser(env, req.(user := Some(Claims(id, false))), w, draws.salt)
    ensures Routes.Serve(env, Routes.AddCategory, req, w, draws)
         == Outcome(Response(403, Denied(AdminsOnly, ClientAddress(req))), w)
  {
    NewUserReachesOwnProfile(env, w, id, req, draws);
    NewUserRefusedCategory(env, w, id, req, draws);
  }

  lemma NewUserReachesOwnProfile(env: Env, w: World, id: string, req: Request, draws: Routes.Draws)
    requires Lawful(env)
    requires req.authorization == Some("Bearer " + env.sign(Claims(id, false)))
    requires req.pathId == Some(id) && env.isObjectId(id)
    ensures Routes.Serve(env, Routes.UpdateProfile, req, w, draws)
         == UsersController.UpdateUser(env, req.(user := Some(Claims(id, false))), w, draws.salt)
  {
    NewUserIsCaller(env, req, id);
    Routes.UpdateProfileIsOwnerOnly(env, req, w, draws);
  }

  lemma NewUserRefusedCategory(env: Env, w: World, id: string, req: Request, draws: Routes.Draws)
    requires Lawful(env)
    requires req.authorization == Some("Bearer " + env.sign(Claims(id, false)))
    ensures Routes.Serve(env, Routes.AddCategory, req, w, draws)
         == Outcome(Response(403, Denied(AdminsOnly, ClientAddress(req))), w)
  {
    NewUserIsCaller(env, req, id);
  }

  /** A header carrying a new user's token names that user, without the admin flag. */
  lemma NewUserIsCaller(env: Env, req: Request, id: string)
    requires Lawful(env)
    requires req.authorization == Some("Bearer " + env.sign(Claims(id, false)))
    ensures VerifyToken(env, req) == Next(req.(user := Some(Claims(id, false))))
    ensures Routes.Caller(env, req) == Some(Claims(id, false))
  {
    assert "Bearer " + env.sign(Claims(id, false)) == "Bearer" + " " + env.sign(Claims(id, false));
    VerifyTokenAcceptsIssuedToken(env, req, "Bearer", Claims(id, false));
  }
}

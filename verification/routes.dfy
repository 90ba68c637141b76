/** routes/UsersRoute.js, routes/CategoriesRoute.js, routes/PostsRoute.js (and the two public
    routes of routes/AuthRoute.js): each endpoint's middleware chain in front of its handler.
    A guard that responds ends the chain; `next()` passes the extended request on. */
module Routes {
  import opened Base
  import opened Externals
  import opened Store
  import opened Http
  import opened Guards
  import Uploads
  import AuthController
  import UsersController
  import CategoryController
  import PostController

  /** The values a request draws from outside the program: the ObjectId of a new document,
      the bcrypt salt, the upload timestamp and the hosting service's answer. */
  datatype Draws = Draws(id: string, salt: string, isoTime: string, hosted: Option<Asset>)

  datatype Endpoint =
    | SignUp           // POST /api/auth/signup
    | SignIn           // POST /api/auth/signin
    | ListUsers        // GET  /api/users/profile
    | ShowUser         // GET  /api/users/profile/:id
    | UpdateProfile    // PUT  /api/users/profile/:id
    | CountUsers       // GET  /api/users/count
    | AddCategory      // POST /api/categories
    | ListCategories   // GET  /api/categories
    | CountCategories  // GET  /api/categories/count
    | AddPost          // POST /api/posts

  /** The endpoints whose path carries `:id`; Express binds `req.params.id` on them. */
  predicate BindsId(e: Endpoint) {
    e == ShowUser || e == UpdateProfile
  }

  /** The endpoint's chain run on one request. */
  function Serve(env: Env, e: Endpoint, req: Request, w: World, draws: Draws): (o: Outcome)
    requires BindsId(e) ==> req.pathId.Some?
    ensures o.world.users != w.users ==> e == SignUp || e == UpdateProfile
    ensures o.world.categories != w.categories ==> e == AddCategory
    ensures o.world.posts != w.posts || o.world.assets != w.assets ==> e == AddPost
    ensures UniqueIndexes(w) ==> UniqueIndexes(o.world)
  {
    match e
    case SignUp => AuthController.Signup(env, req, w, draws.id, draws.salt)
    case SignIn => AuthController.Signin(env, req, w)
    case ListUsers => (
      match VerifyTokenAdmin(env, req)
      case Respond(r) => Outcome(r, w)
      case Next(_) => UsersController.GetUsers(w))
    case ShowUser => (
      match ValidateObjectId(env, req)
      case Respond(r) => Outcome(r, w)
      case Next(req1) => UsersController.GetUserById(env, req1, w))
    case UpdateProfile => (
      match ValidateObjectId(env, req)
      case Respond(r) => Outcome(r, w)
      case Next(req1) => (
        match VerifyTokenUser(env, req1)
        case Respond(r) => Outcome(r, w)
        case Next(req2) => UsersController.UpdateUser(env, req2, w, draws.salt)))
    case CountUsers => (
      match VerifyTokenAdmin(env, req)
      case Respond(r) => Outcome(r, w)
      case Next(_) => UsersController.GetUsersCount(w))
    case AddCategory => (
      match VerifyTokenAdmin(env, req)
      case Respond(r) => Outcome(r, w)
      case Next(req1) => CategoryController.CreateCategory(env, req1, w, draws.id))
    case ListCategories => CategoryController.GetCategories(w)
    case CountCategories => CategoryController.GetCategoriesCount(w)
    case AddPost => (
      match VerifyToken(env, req)
      case Respond(r) => Outcome(r, w)
      case Next(req1) => (
        match Uploads.StageImage(req1, w, draws.isoTime)
        case Rejected(r) => Outcome(r, w)
        case Staged(req2, w2) => PostController.CreatePost(env, req2, w2, draws.id, draws.hosted)))
  }

  /** The caller `verifyToken` would authenticate, if any. */
  function Caller(env: Env, req: Request): Option<Claims> {
    match VerifyToken(env, req)
    case Next(r) => r.user
    case Respond(_) => None
  }

  /** An administrator: authenticated, with the admin flag in the token. */
  predicate IsAdminCaller(env: Env, req: Request) {
    Caller(env, req).Some? && Caller(env, req).value.isAdmin
  }

  /** Listing and counting users are for administrators: anyone else gets 401 (no valid token)
      or 403 (valid, not admin) and changes nothing. */
  lemma UserListingIsAdminOnly(env: Env, e: Endpoint, req: Request, w: World, draws: Draws)
    requires e == ListUsers || e == CountUsers
    ensures Serve(env, e, req, w, draws).world == w
    ensures Serve(env, e, req, w, draws).response.status == 200 <==> IsAdminCaller(env, req)
    ensures Caller(env, req).None? ==> Serve(env, e, req, w, draws).response.status == 401
    ensures Caller(env, req).Some? && !Caller(env, req).value.isAdmin ==>
      Serve(env, e, req, w, draws).response.status == 403
  {
  }

  /** Reading a profile needs no credential: the answer depends on the id alone, not on the
      headers or an attached identity. */
  lemma ShowUserNeedsNoCredential(env: Env, req: Request, w: World, draws: Draws,
                                  authorization: Option<string>, user: Option<Claims>)
    requires req.pathId.Some?
    ensures Serve(env, ShowUser, req, w, draws)
         == Serve(env, ShowUser, req.(authorization := authorization, user := user), w, draws)
    ensures !env.isObjectId(req.pathId.value) ==>
      Serve(env, ShowUser, req, w, draws).response == Response(400, Message(InvalidId))
  {
  }

  /** Updating a profile: a malformed id is refused 400 before any token is looked at, and
      only the profile's owner reaches `updateUser`. */
  lemma UpdateProfileIsOwnerOnly(env: Env, req: Request, w: World, draws: Draws)
    requires req.pathId.Some?
    ensures !env.isObjectId(req.pathId.value) ==>
      Serve(env, UpdateProfile, req, w, draws) == Outcome(Response(400, Message(InvalidId)), w)
    ensures env.isObjectId(req.pathId.value) && Caller(env, req).None? ==>
      Serve(env, UpdateProfile, req, w, draws).response.status == 401
    ensures env.isObjectId(req.pathId.value) && Caller(env, req).Some? && Caller(env, req).value.id != req.pathId.value ==>
      Serve(env, UpdateProfile, req, w, draws) == Outcome(Response(403, Message(OwnerOnly)), w)
    ensures env.isObjectId(req.pathId.value) && Caller(env, req).Some? && Caller(env, req).value.id == req.pathId.value ==>
      Serve(env, UpdateProfile, req, w, draws)
        == UsersController.UpdateUser(env, req.(user := Caller(env, req)), w, draws.salt)
    ensures Serve(env, UpdateProfile, req, w, draws).world != w ==>
      Caller(env, req).Some? && Caller(env, req).value.id == req.pathId.value
  {
  }

  /** Creating a category: no token gives 401, a non-admin token 403, both with nothing
      created; an administrator reaches `createCategory`, whose validation still applies. */
  lemma AddCategoryIsAdminOnly(env: Env, req: Request, w: World, draws: Draws)
    ensures Caller(env, req).None? ==>
      Serve(env, AddCategory, req, w, draws).response.status == 401
      && Serve(env, AddCategory, req, w, draws).world == w
    ensures Caller(env, req).Some? && !Caller(env, req).value.isAdmin ==>
      Serve(env, AddCategory, req, w, draws).response.status == 403
      && Serve(env, AddCategory, req, w, draws).world == w
    ensures IsAdminCaller(env, req) ==>
      Serve(env, AddCategory, req, w, draws)
        == CategoryController.CreateCategory(env, req.(user := Caller(env, req)), w, draws.id)
  {
  }

  /** Listing and counting categories are public: the request is not read at all. */
  lemma CategoryReadsArePublic(env: Env, e: Endpoint, req1: Request, req2: Request, w: World, draws: Draws)
    requires e == ListCategories || e == CountCategories
    ensures Serve(env, e, req1, w, draws) == Serve(env, e, req2, w, draws)
    ensures Serve(env, e, req1, w, draws).response.status == 200
  {
  }

  /** Creating a post: without a valid token the chain stops at 401 before multer, so nothing
      is staged, uploaded or created. */
  lemma AddPostNeedsToken(env: Env, req: Request, w: World, draws: Draws)
    requires Caller(env, req).None?
    ensures Serve(env, AddPost, req, w, draws).response.status == 401
    ensures Serve(env, AddPost, req, w, draws).world == w
  {
  }

  /** Any authenticated caller, administrator or not, reaches `createPost` through multer
      with the decoded identity attached; a request with no file part gets the handler's own
      "Please upload an image". */
  lemma AddPostHasNoRoleCheck(env: Env, req: Request, w: World, draws: Draws)
    ensures Caller(env, req).Some? ==>
      Serve(env, AddPost, req, w, draws)
        == match Uploads.StageImage(req.(user := Caller(env, req)), w, draws.isoTime)
           case Rejected(r) => Outcome(r, w)
           case Staged(req2, w2) => PostController.CreatePost(env, req2, w2, draws.id, draws.hosted)
    ensures Caller(env, req).Some? && req.part.None? && req.file.None? ==>
      Serve(env, AddPost, req, w, draws) == Outcome(Response(400, Message(PostController.ImageRequired)), w)
  {
  }

  /** The admin flag in the token is never read on the way to a post: two requests that differ
      only in their authorization header and authenticate the same user id get the same
      outcome. */
  lemma AddPostIgnoresAdminFlag(env: Env, a: Request, b: Request, w: World, draws: Draws)
    requires a == b.(authorization := a.authorization)
    requires Caller(env, a).Some? && Caller(env, b).Some?
    requires Caller(env, a).value.id == Caller(env, b).value.id
    ensures Serve(env, AddPost, a, w, draws) == Serve(env, AddPost, b, w, draws)
  {
    var ra := a.(user := Caller(env, a));
    var rb := b.(user := Caller(env, b));
    assert VerifyToken(env, a) == Next(ra) && VerifyToken(env, b) == Next(rb);
    var sa := Uploads.StageImage(ra, w, draws.isoTime);
    var sb := Uploads.StageImage(rb, w, draws.isoTime);
    if sa.Staged? {
      assert sb.Staged? && sa.world == sb.world;
      PostController.CreatePostReadsOnlyAuthorId(env, sa.req, sb.req, sa.world, draws.id, draws.hosted);
    }
  }

  /** A created post's author is the caller the token names, and the new post is the only
      change to the posts. */
  lemma AddPostAuthorIsCaller(env: Env, req: Request, w: World, draws: Draws)
    requires req.part.Some?
    requires Serve(env, AddPost, req, w, draws).response.status == 201
    ensures Caller(env, req).Some?
    ensures var posts := Serve(env, AddPost, req, w, draws).world.posts;
            && |posts| == |w.posts| + 1
            && posts[..|w.posts|] == w.posts
            && posts[|w.posts|].user == Caller(env, req).value.id
  {
    var req1 := VerifyToken(env, req).req;
    var staged := Uploads.StageImage(req1, w, draws.isoTime);
    PostController.CreatedPostFields(env, staged.req, staged.world, draws.id, draws.hosted);
  }

  /** No endpoint adds or removes an administrator. */
  lemma AdminsNeverChange(env: Env, e: Endpoint, req: Request, w: World, draws: Draws)
    requires BindsId(e) ==> req.pathId.Some?
    ensures AdminIds(Serve(env, e, req, w, draws).world.users) == AdminIds(w.users)
  {
    match e {
      case SignUp => AuthController.SignupKeepsAdmins(env, req, w, draws.id, draws.salt);
      case UpdateProfile =>
        match ValidateObjectId(env, req) {
          case Respond(_) =>
          case Next(req1) =>
            match VerifyTokenUser(env, req1) {
              case Respond(_) =>
              case Next(req2) => UsersController.UpdateUserKeepsAdmins(env, req2, w, draws.salt);
            }
        }
      case _ =>
    }
  }
}

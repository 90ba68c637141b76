/** The three Mongoose models (User, Category, Post) as records, and the in-memory world a
    request runs against: the collections, the hosted-asset log and the staged upload files. */
module Store {
  import opened Base
  import opened Text

  /** `profilePic: {url, public_id}`; `public_id` is `null` until an avatar is uploaded. */
  datatype ProfilePic = ProfilePic(url: string, publicId: Option<string>)

  /** An image held by the hosting service: `{url, public_id}` as stored on a post. */
  datatype Asset = Asset(url: string, publicId: string)

  /** A User document. `username`, `password` and `bio` may be `null`/missing (`None`): `bio` is
      optional, and an update may null the other two (see `Externals.SetPolicy`). */
  datatype User = User(
    id: string,
    username: Option<string>,
    email: string,
    password: Option<string>,
    profilePic: ProfilePic,
    bio: Option<string>,
    isAdmin: bool,
    isVerified: bool)

  /** A Category document; `name` is the schema's `category` field. */
  datatype Category = Category(id: string, name: string)

  /** A Post document; `user` and `category` are references by id. */
  datatype Post = Post(
    id: string,
    title: string,
    description: string,
    user: string,
    category: string,
    image: Asset,
    likes: seq<string>)

  /** Everything a request can read or change: the database, the log of assets uploaded to
      the hosting service, and the names of files staged in the local upload directory. */
  datatype World = World(
    users: seq<User>,
    categories: seq<Category>,
    posts: seq<Post>,
    assets: seq<Asset>,
    staged: set<string>)

  const DefaultAvatarUrl: string :=
    "https://cdn.pixabay.com/photo/2015/10/05/22/37/blank-profile-picture-973460_1280.png"

  /** The schema default for `profilePic`. */
  const DefaultProfilePic: ProfilePic := ProfilePic(DefaultAvatarUrl, None)

  /** The schema default for a post's `image`. */
  const DefaultPostImage: Asset := Asset("", "")

  /** `new User({...})`: the given fields plus the schema defaults for the rest. */
  function NewUser(id: string, username: string, email: string, password: string): (u: User)
    ensures u.id == id && u.username == Some(username) && u.email == email
    ensures u.password == Some(password)
    ensures !u.isAdmin && !u.isVerified
    ensures u.profilePic.url == DefaultAvatarUrl && u.profilePic.publicId.None?
    ensures u.bio.None?
  {
    User(id, Some(username), email, Some(password), DefaultProfilePic, None, false, false)
  }

  /** `new Post({...})`: the schema default fills `image` when none is given; `likes` starts empty. */
  function NewPost(id: string, title: string, description: string, user: string, category: string,
                   image: Option<Asset>): (p: Post)
    ensures image.None? ==> p.image.url == "" && p.image.publicId == ""
    ensures image.Some? ==> p.image == image.value
    ensures p.likes == []
    ensures p.id == id && p.title == title && p.description == description
    ensures p.user == user && p.category == category
  {
    Post(id, title, description, user, category, image.GetOr(DefaultPostImage), [])
  }

  /** The password-free projection `select('-password')` returns. */
  datatype PublicUser = PublicUser(
    id: string,
    username: Option<string>,
    email: string,
    profilePic: ProfilePic,
    bio: Option<string>,
    isAdmin: bool,
    isVerified: bool)

  function Public(u: User): PublicUser {
    PublicUser(u.id, u.username, u.email, u.profilePic, u.bio, u.isAdmin, u.isVerified)
  }

  /** Two distinct users never agree on an indexed field. */
  ghost predicate UniqueUsers(users: seq<User>) {
    forall i, j :: 0 <= i < j < |users| ==>
      && users[i].id != users[j].id
      && users[i].username != users[j].username
      && users[i].email != users[j].email
  }

  /** The unique indexes MongoDB maintains: `_id` on every collection, and `username` and
      `email` on users (a missing value indexes as `null`, so it too can collide). */
  ghost predicate UniqueIndexes(w: World) {
    && UniqueUsers(w.users)
    && (forall i, j :: 0 <= i < j < |w.categories| ==> w.categories[i].id != w.categories[j].id)
    && (forall i, j :: 0 <= i < j < |w.posts| ==> w.posts[i].id != w.posts[j].id)
  }

  /** Does `u` collide with a stored user on `_id`, `username` or `email`? */
  predicate ClashesWith(users: seq<User>, u: User) {
    exists i :: 0 <= i < |users| &&
      (users[i].id == u.id || users[i].username == u.username || users[i].email == u.email)
  }

  /** `user.save()` of a new document: refused (E11000) when a unique index would be violated. */
  function InsertUser(w: World, u: User): (r: Option<World>)
    ensures r.Some? <==> !ClashesWith(w.users, u)
    ensures r.Some? ==> r.value == w.(users := w.users + [u])
    ensures r.Some? && UniqueIndexes(w) ==> UniqueIndexes(r.value)
  {
    if ClashesWith(w.users, u) then None
    else
      var w' := w.(users := w.users + [u]);
      assert forall i :: 0 <= i < |w.users| ==> w'.users[i] == w.users[i];
      Some(w')
  }

  /** No stored user other than the one at index `k` holds `name` as its username. */
  predicate UsernameFree(users: seq<User>, k: nat, name: Option<string>) {
    forall i :: 0 <= i < |users| && i != k ==> users[i].username != name
  }

  /** `findByIdAndUpdate` writing `u` over the user at index `k`: refused (E11000) when the
      new `username` is taken by another user. */
  function ReplaceUser(w: World, k: nat, u: User): (r: Option<World>)
    requires k < |w.users| && u.id == w.users[k].id && u.email == w.users[k].email
    ensures r.Some? <==> UsernameFree(w.users, k, u.username)
    ensures r.Some? ==> r.value == w.(users := w.users[k := u])
    ensures r.Some? && UniqueIndexes(w) ==> UniqueIndexes(r.value)
  {
    if exists i :: 0 <= i < |w.users| && i != k && w.users[i].username == u.username then None
    else Some(w.(users := w.users[k := u]))
  }

  /** `category.save()`: refused only on an `_id` collision; names need not be unique. */
  function InsertCategory(w: World, c: Category): (r: Option<World>)
    ensures r.Some? <==> forall i :: 0 <= i < |w.categories| ==> w.categories[i].id != c.id
    ensures r.Some? ==> r.value == w.(categories := w.categories + [c])
    ensures r.Some? && UniqueIndexes(w) ==> UniqueIndexes(r.value)
  {
    if exists i :: 0 <= i < |w.categories| && w.categories[i].id == c.id then None
    else Some(w.(categories := w.categories + [c]))
  }

  /** `post.save()`: refused only on an `_id` collision. */
  function InsertPost(w: World, p: Post): (r: Option<World>)
    ensures r.Some? <==> forall i :: 0 <= i < |w.posts| ==> w.posts[i].id != p.id
    ensures r.Some? ==> r.value == w.(posts := w.posts + [p])
    ensures r.Some? && UniqueIndexes(w) ==> UniqueIndexes(r.value)
  {
    if exists i :: 0 <= i < |w.posts| && w.posts[i].id == p.id then None
    else Some(w.(posts := w.posts + [p]))
  }

  /** Two id strings that a query casts to the same ObjectId: equal up to the case of their
      hex digits. */
  predicate SameObjectId(a: string, b: string) {
    LowerHex(a) == LowerHex(b)
  }

  /** The ids of the administrators in a world. */
  function AdminIds(users: seq<User>): set<string> {
    set i | 0 <= i < |users| && users[i].isAdmin :: users[i].id
  }
}

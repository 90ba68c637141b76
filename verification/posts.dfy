/** controllers/PostController.js: `createPost`, with its checks in source order and the
    effects each one leaves behind. */
module PostController {
  import opened Base
  import opened Text
  import opened Externals
  import opened Store
  import opened Http
  import opened Validation

  const ImageRequired: string := "Please upload an image"
  const InvalidCategory: string := "Invalid category"

  /** `Category.findById(id)`: the first stored category whose id `id` casts to, hex case
      ignored. */
  function FindCategory(categories: seq<Category>, id: string): (r: Option<nat>)
    ensures r.Some? ==> r.value < |categories| && SameObjectId(categories[r.value].id, id)
    ensures r.Some? ==> forall j :: 0 <= j < r.value ==> !SameObjectId(categories[j].id, id)
    ensures r.None? <==> forall i :: 0 <= i < |categories| ==> !SameObjectId(categories[i].id, id)
  {
    FindFirst(categories, (c: Category) => SameObjectId(c.id, id))
  }

  /** Ids that differ only in the case of their hex digits find the same category: the
      upper-case form of a stored id is as good as the id itself. */
  lemma FindCategoryIgnoresHexCase(categories: seq<Category>, a: string, b: string)
    requires LowerHex(a) == LowerHex(b)
    ensures FindCategory(categories, a) == FindCategory(categories, b)
  {
    var ra := FindCategory(categories, a);
    var rb := FindCategory(categories, b);
    if ra.Some? && rb.Some? {
      if ra.value < rb.value {
        assert SameObjectId(categories[ra.value].id, b);
      } else if rb.value < ra.value {
        assert SameObjectId(categories[rb.value].id, a);
      }
    }
  }

  /** The post `createPost` builds: body title and description, the category cast to an
      ObjectId (lower-case hex), the author from the verified token, the hosted image. */
  function PostOf(id: string, f: PostForm, author: Claims, image: Asset): Post {
    NewPost(id, f.title, f.description, author.id, LowerHex(f.category), Some(image))
  }

  /** `createPost`. `id` is the new post's ObjectId; `hosted` is what `cloudinaryUpload`
      returned for the staged file (`None` when it threw). */
  function CreatePost(env: Env, req: Request, w: World, id: string, hosted: Option<Asset>): (o: Outcome)
    ensures req.file.None? ==> o.response == Response(400, Message(ImageRequired)) && o.world == w
    ensures req.file.Some? && !PostAcceptable(env, req.body) ==>
      && o.response == Response(400, JsonText(IssueMessage(ValidatePost(env, req.body).error)))
      && o.world == w
    ensures req.file.Some? && PostAcceptable(env, req.body) && hosted.Some?
            && FindCategory(w.categories, Raw(req.body, "category")).None? ==>
      && o.response == Response(400, JsonText(InvalidCategory))
      && o.world == w.(assets := w.assets + [hosted.value])
    ensures req.file.Some? && PostAcceptable(env, req.body) && hosted.None? ==>
      o.response.status == 500 && o.world == w
    ensures o.response.status == 201 <==>
      && req.file.Some? && PostAcceptable(env, req.body) && hosted.Some?
      && FindCategory(w.categories, Raw(req.body, "category")).Some?
      && req.user.Some?
      && forall i :: 0 <= i < |w.posts| ==> w.posts[i].id != id
    ensures o.response.status == 201 ==>
      var p := PostOf(id, ValidatePost(env, req.body).value, req.user.value, hosted.value);
      && o.response.payload == OnePost(p)
      && o.world == w.(assets := w.assets + [hosted.value], posts := w.posts + [p],
                       staged := w.staged - {req.file.value.filename})
    ensures o.response.status != 201 ==> o.world.posts == w.posts && o.world.staged == w.staged
    ensures o.world.users == w.users && o.world.categories == w.categories
    ensures o.world.assets == w.assets || (hosted.Some? && o.world.assets == w.assets + [hosted.value])
    ensures UniqueIndexes(w) ==> UniqueIndexes(o.world)
  {
    match req.file
    case None => Outcome(Response(400, Message(ImageRequired)), w)
    case Some(file) =>
      match ValidatePost(env, req.body)
      case Failure(i) => Outcome(Response(400, JsonText(IssueMessage(i))), w)
      case Success(f) =>
        HostAndSave(req, w, f, file, id, hosted)
  }

  /** `createPost` from the upload on: a failed upload throws (500, nothing changed);
      otherwise the hosted image is logged and the post is saved. */
  function HostAndSave(req: Request, w: World, f: PostForm, file: StagedFile, id: string, hosted: Option<Asset>): (o: Outcome)
    ensures hosted.None? ==> o.response.status == 500 && o.world == w
    ensures hosted.Some? && FindCategory(w.categories, f.category).None? ==>
      o == Outcome(Response(400, JsonText(InvalidCategory)), w.(assets := w.assets + [hosted.value]))
    ensures o.response.status == 201 <==>
      && hosted.Some? && FindCategory(w.categories, f.category).Some? && req.user.Some?
      && forall i :: 0 <= i < |w.posts| ==> w.posts[i].id != id
    ensures o.response.status == 201 ==>
      var p := PostOf(id, f, req.user.value, hosted.value);
      o == Outcome(Response(201, OnePost(p)),
                   w.(assets := w.assets + [hosted.value], posts := w.posts + [p], staged := w.staged - {file.filename}))
    ensures o.response.status != 201 ==> o.world.posts == w.posts && o.world.staged == w.staged
    ensures o.world.users == w.users && o.world.categories == w.categories
    ensures o.world.assets == w.assets || (hosted.Some? && o.world.assets == w.assets + [hosted.value])
    ensures UniqueIndexes(w) ==> UniqueIndexes(o.world)
  {
    match hosted
    case None => Crash(w, "upload failed")
    case Some(image) => SavePost(req, w.(assets := w.assets + [image]), f, file, id, image)
  }

  /** `createPost` after the upload: the category lookup, the author and the save. A 201
      also removes the staged file; every other outcome leaves `uploaded` as it is. */
  function SavePost(req: Request, uploaded: World, f: PostForm, file: StagedFile, id: string, image: Asset): (o: Outcome)
    ensures FindCategory(uploaded.categories, f.category).None? ==>
      o == Outcome(Response(400, JsonText(InvalidCategory)), uploaded)
    ensures o.response.status == 201 <==>
      && FindCategory(uploaded.categories, f.category).Some?
      && req.user.Some?
      && forall i :: 0 <= i < |uploaded.posts| ==> uploaded.posts[i].id != id
    ensures o.response.status == 201 ==>
      var p := PostOf(id, f, req.user.value, image);
      o == Outcome(Response(201, OnePost(p)),
                   uploaded.(posts := uploaded.posts + [p], staged := uploaded.staged - {file.filename}))
    ensures o.response.status != 201 ==> o.world == uploaded
    ensures UniqueIndexes(uploaded) ==> UniqueIndexes(o.world)
  {
    if FindCategory(uploaded.categories, f.category).None? then
      Outcome(Response(400, JsonText(InvalidCategory)), uploaded)
    else
      match req.user
      case None => Crash(uploaded, "TypeError: Cannot read properties of undefined (reading 'id')")
      case Some(author) =>
        var p := PostOf(id, f, author, image);
        match InsertPost(uploaded, p)
        case None => Crash(uploaded, "E11000 duplicate key error")
        case Some(saved) => Outcome(Response(201, OnePost(p)), saved.(staged := saved.staged - {file.filename}))
  }

  /** Of the attached identity `createPost` reads only the id: requests that agree on file,
      body and caller id, whatever the admin flag, get the same outcome. */
  lemma CreatePostReadsOnlyAuthorId(env: Env, r1: Request, r2: Request, w: World, id: string, hosted: Option<Asset>)
    requires r1.file == r2.file && r1.body == r2.body
    requires r1.user.Some? <==> r2.user.Some?
    requires r1.user.Some? ==> r1.user.value.id == r2.user.value.id
    ensures CreatePost(env, r1, w, id, hosted) == CreatePost(env, r2, w, id, hosted)
  {
    if r1.file.Some? && ValidatePost(env, r1.body).Success? && hosted.Some? {
      var f := ValidatePost(env, r1.body).value;
      SavePostReadsOnlyAuthorId(r1, r2, w.(assets := w.assets + [hosted.value]), f, r1.file.value, id, hosted.value);
    }
  }

  /** The same for the save step, where the identity is read. */
  lemma SavePostReadsOnlyAuthorId(r1: Request, r2: Request, uploaded: World, f: PostForm, file: StagedFile, id: string, image: Asset)
    requires r1.user.Some? <==> r2.user.Some?
    requires r1.user.Some? ==> r1.user.value.id == r2.user.value.id
    ensures SavePost(r1, uploaded, f, file, id, image) == SavePost(r2, uploaded, f, file, id, image)
  {
    if r1.user.Some? {
      assert PostOf(id, f, r1.user.value, image) == PostOf(id, f, r2.user.value, image);
    }
  }

  /** The image goes to the hosting service before the category is looked up: a request
      naming an unknown category is refused, yet its image stays hosted and its staged file
      stays on disk. */
  lemma UploadPrecedesCategoryCheck(env: Env, req: Request, w: World, id: string, image: Asset)
    requires req.file.Some? && PostAcceptable(env, req.body)
    requires forall i :: 0 <= i < |w.categories| ==> !SameObjectId(w.categories[i].id, Raw(req.body, "category"))
    ensures var o := CreatePost(env, req, w, id, Some(image));
            && o.response.status == 400
            && o.world.posts == w.posts
            && o.world.assets == w.assets + [image]
            && o.world.staged == w.staged
  {
  }

  /** A created post carries the body's title and description, the body's category in
      lower-case hex naming a stored category, the verified caller as author whatever the
      body says, the hosted image and no likes. */
  lemma CreatedPostFields(env: Env, req: Request, w: World, id: string, hosted: Option<Asset>)
    requires CreatePost(env, req, w, id, hosted).response.status == 201
    ensures var posts := CreatePost(env, req, w, id, hosted).world.posts;
            var p := posts[|posts| - 1];
            && |posts| == |w.posts| + 1
            && p.id == id
            && p.user == req.user.value.id
            && StrField(req.body, "title") == Some(p.title)
            && StrField(req.body, "description") == Some(p.description)
            && StrField(req.body, "category").Some?
            && p.category == LowerHex(StrField(req.body, "category").value)
            && (exists i :: 0 <= i < |w.categories| && SameObjectId(w.categories[i].id, p.category))
            && p.image == hosted.value
            && p.likes == []
  {
    var f := ValidatePost(env, req.body).value;
    var k := FindCategory(w.categories, f.category).value;
    var p := PostOf(id, f, req.user.value, hosted.value);
    assert CreatePost(env, req, w, id, hosted).world.posts == w.posts + [p];
    LowerHexIdempotent(f.category);
    assert SameObjectId(w.categories[k].id, p.category);
  }
}

/** Express's request and response objects, reduced to the fields the core reads and writes. */
module Http {
  import opened Base
  import opened Externals
  import opened Store

  /** A JSON value in a parsed body. Every validated field is a string, so arrays and
      objects are one `Composite` case. */
  datatype Json = Str(s: string) | Num(n: int) | Bool(b: bool) | Null | Composite

  /** One `"key": value` pair of a JSON object, in source order. */
  datatype Member = Member(key: string, value: Json)

  /** `req.body` as parsed by `express.json()`. */
  type Body = seq<Member>

  /** `body[key]`: the last binding of `key` (as `JSON.parse` keeps it), or undefined. */
  function Get(b: Body, key: string): (r: Option<Json>)
    ensures r.None? <==> forall i :: 0 <= i < |b| ==> b[i].key != key
    ensures r.Some? ==> exists i :: 0 <= i < |b| && b[i] == Member(key, r.value)
                                  && forall j :: i < j < |b| ==> b[j].key != key
  {
    if |b| == 0 then None
    else if b[|b| - 1].key == key then Some(b[|b| - 1].value)
    else
      var r := Get(b[..|b| - 1], key);
      assert forall i :: 0 <= i < |b| - 1 ==> b[..|b| - 1][i] == b[i];
      var front := b[..|b| - 1];
      assert r.Some? ==> exists i :: 0 <= i < |b| && b[i] == Member(key, r.value)
                                     && forall j :: i < j < |b| ==> b[j].key != key by {
        if r.Some? {
          var i :| 0 <= i < |front| && front[i] == Member(key, r.value)
                   && forall j :: i < j < |front| ==> front[j].key != key;
          assert b[i] == Member(key, r.value);
        }
      }
      r
  }

  /** `body[key]` when it is a string. */
  function StrField(b: Body, key: string): Option<string> {
    match Get(b, key)
    case Some(Str(s)) => Some(s)
    case _ => None
  }

  /** The multipart file part named `image`, before multer has processed it. */
  datatype FilePart = FilePart(originalName: string, mimeType: string, size: nat)

  /** `req.file` after multer has written the part to the upload directory. */
  datatype StagedFile = StagedFile(filename: string, originalName: string, mimeType: string, size: nat)

  /** The request fields the core reads. `user` and `file` are what the middlewares attach. */
  datatype Request = Request(
    authorization: Option<string>,   // req.headers.authorization
    forwardedFor: Option<string>,    // req.headers['x-forwarded-for']
    remoteAddress: Option<string>,   // req.connection.remoteAddress
    ip: Option<string>,              // req.ip
    pathId: Option<string>,          // req.params.id
    body: Body,                      // req.body
    part: Option<FilePart>,          // the uploaded multipart file, if any
    user: Option<Claims>,            // req.user
    file: Option<StagedFile>)        // req.file

  /** The JSON (or text) a response carries. */
  datatype Payload =
    | Message(text: string)                           // { message }
    | Denied(text: string, ipAddress: Option<string>) // { message, ipAddress }
    | Plain(text: string)                             // res.send(text): the text itself
    | JsonText(text: string)                          // res.json(text): a JSON string literal
    | Count(count: nat)                               // { count }
    | OneUser(user: PublicUser)
    | Users(users: seq<PublicUser>)
    | NoDocument                                      // JSON null
    | SignedIn(token: string, id: string, profilePic: ProfilePic, isAdmin: bool)
    | OneCategory(category: Category)
    | Categories(categories: seq<Category>)
    | OnePost(post: Post)
    | ServerError(text: string)                       // Express's default error handler

  datatype Response = Response(status: int, payload: Payload)

  /** What a middleware does with a request: call `next()` with the (possibly extended)
      request, or write one response and stop. One value of this type is exactly one of the two. */
  datatype Step = Next(req: Request) | Respond(response: Response)

  /** What a handler leaves behind: the response written and the world after it. */
  datatype Outcome = Outcome(response: Response, world: World)

  /** An error thrown inside an `asyncHandler` reaches Express's default handler: status 500. */
  function Crash(w: World, reason: string): (o: Outcome)
    ensures o.response.status == 500 && o.world == w
  {
    Outcome(Response(500, ServerError(reason)), w)
  }
}

# react-blog server core in Dafny

A model of the Express/Mongoose back end of the react-blog project. It covers the access
guards, the joi input validators, the controller handlers, the multer callbacks and the
route pipelines that compose them. Every part is a pure function over immutable data:

- A request is a `Request` record. It holds the headers, the path id, the parsed JSON body, the
  multipart file part, and what the middlewares attach (`req.user`, `req.file`).
- The database and its side effects form one `World`. It holds the users, categories and
  posts, the log of images uploaded to the hosting service, and the names of files staged in
  the local upload directory.
- A guard returns `Next(request)` or `Respond(response)`, never both.
- A handler returns the response it writes and the world after it.
- `Routes.Serve` runs an endpoint's middleware chain. The first guard that responds ends it.

Foreign libraries are function-valued fields of `Externals.Env`:

- jsonwebtoken `sign`/`verify` under the server secret;
- bcryptjs `hash`/`compare`;
- joi's `.email()`;
- the ObjectId format check.

The ghost predicate `Externals.Lawful` lists the only facts the proofs assume about them:

- a signed payload verifies to itself;
- a compact JWT contains no space;
- the empty string never verifies;
- a password matches every hash made of it.

Values the program takes from outside are explicit parameters (`Routes.Draws`):

- the ObjectId of a new document;
- the bcrypt salt;
- the upload timestamp;
- the hosting service's answer. `None` means the upload threw.

One behaviour depends on the Mongoose version: what `$set: {field: undefined}` does in
`updateUser`. It is the named assumption `Env.setPolicy`. `StripUndefined` keeps the stored
value, and `StoreNull` clears it to `null`. Every `updateUser` property is stated for both
settings. This is why `username`, `password` and `bio` of a stored user are optional.

Other modelling decisions:

- **Unique indexes.** The indexes on `_id`, `username` and `email` are modelled as save
  failures. A failed save is an E11000 error, which `asyncHandler` hands to Express's default
  handler, so the response is 500. `Store.UniqueIndexes` is preserved by every endpoint.
- **Joi semantics.** Keys are checked in declaration order, then unknown keys are refused. The
  first failure is reported. A `.trim()` rule checks the trimmed string. An empty string is
  refused before any length rule. Messages follow joi's default English templates.
- **Multer.**
  - A request with no file part passes through without `req.file`.
  - A rejected MIME type or a file over the 2 MB limit ends in Express's default error
    handler (500).
- **Ids.** A lookup by id casts the id to an ObjectId, whose hex digits are read
  case-insensitively. `Store.SameObjectId` compares ids after lowering their hex digits, and
  a post stores its category in that lower-case form.
- **Responses.** `res.send(text)` and `res.json(text)` differ: the first sends the text, the
  second a JSON string literal. They are the payloads `Plain` and `JsonText`.
- **Ids that do not cast.** A path id that is not an ObjectId, reaching `findById` or
  `findByIdAndUpdate` directly, is a CastError (500). On the real routes, `validateObjectID`
  answers 400 first.

## Model

| member | source | states |
|---|---|---|
| Guards.Credential | middlewares/verifyToken.js:10 | the credential is the piece after the first space, up to the next space; it exists exactly when the header has a space |
| Guards.CredentialFollowsScheme | middlewares/verifyToken.js:10 | for `<word> <rest>` the credential is the first space-free piece of `rest`; the scheme word is never inspected |
| Guards.VerifyToken | middlewares/verifyToken.js:4-16 | no or empty header: 401 "Access denied"; no second segment or a failing verify: 401 "Unauthorized"; otherwise next with `req.user` set to exactly the decoded payload, nothing else changed |
| Guards.VerifyTokenAcceptsIssuedToken | middlewares/verifyToken.js:9-12 | a header `<any word> <issued token>` authenticates as exactly the signed claims |
| Guards.VerifyTokenIgnoresScheme | middlewares/verifyToken.js:10 | headers differing only in the scheme word get the same answer and the same identity |
| Guards.ClientAddress | middlewares/verifyToken.js:23 | the reported address is the forwarded-for header if truthy, else the remote address if truthy, else `req.ip` (even when that is falsy too); it is truthy exactly when one of them is |
| Guards.VerifyTokenAdmin | middlewares/verifyToken.js:20-29 | a 401 from verifyToken passes through unchanged; an authenticated non-admin gets 403 with the fixed message and the first truthy of x-forwarded-for, remote address, req.ip; an admin continues |
| Guards.VerifyTokenUser | middlewares/verifyToken.js:32-41 | continues exactly when the token's id equals `params.id`; an authenticated mismatch gets 403 with the fixed message |
| Guards.VerifyTokenUserHasNoAdminOverride | middlewares/verifyToken.js:34 | an administrator's token on another user's id is refused 403 like anyone's |
| Guards.ValidateObjectId | middlewares/validateObjectID.js:4-9 | continues with the request unchanged exactly when `params.id` is a valid ObjectId; otherwise 400 "Invalid ID" |
| Guards.ValidateObjectIdReadsOnlyPathId | middlewares/validateObjectID.js:5 | two requests with the same `params.id` get the same decision, whatever their headers, body or identity |
| Validation.Validate | models/User.js:69 | `schema.validate` reports no error exactly when every declared key passes its rule and no other key occurs; a failing declared key is always reported ahead of any unknown key; an unknown-key error names the first unknown key in `Object.keys` order |
| Validation.FirstKeyIssue | models/User.js:64-68 | the reported key fails with the reported problem and every key declared before it passes; none is reported exactly when all pass |
| Text.TrimIsInfix | models/User.js:65 | what a `.trim()` rule checks is an infix of the value with only whitespace before and after it |
| Validation.StringProblem | models/User.js:65-67 | empty is reported exactly when the converted value is empty; too short, too long, not an email and not an ObjectId are each reported exactly when that check fails and every earlier one passes, with the rule's own limit |
| Validation.FirstUnknown | models/User.js:69 | none exactly when every key is declared; if any unknown key is an array index, the one of least numeric value; otherwise the first unknown key in body order |
| Validation.AppendedIndexKeyReportedFirst | models/User.js:69 | appending the unknown keys "zz" then "7" to a valid body gets it refused with `"7" is not allowed` |
| Validation.IssueMessage | controllers/AuthController.js:15 | joi's message starts with the offending key in double quotes |
| Validation.ValidateSignupUser | models/User.js:63-70 | accepts exactly the bodies with only username, password and email, username trimmed 3..20, password trimmed at least 8, email trimmed 5..70 and an email; the form holds the raw strings; a refusal carries joi's first issue for the signup schema |
| Validation.ValidateSignInUser | models/User.js:73-79 | accepts exactly the bodies with only password (trimmed at least 8) and email (trimmed 5..70, an email); a refusal carries joi's first issue for the sign-in schema |
| Validation.SigninRefusesUsername | models/User.js:74-77 | a sign-in body that also carries `username` is refused |
| Validation.SignupCredentialsPassSignin | models/User.js:63-79 | the email and password of any accepted signup body, sent alone, pass sign-in validation unchanged |
| Validation.ValidateUpdateUser | models/User.js:82-89 | accepts exactly the bodies whose keys are among username, password, bio, each optional, username and password bounded as in signup, bio non-empty and at most 500 characters untrimmed; a refusal carries joi's first issue for the update schema |
| Validation.UpdateUserAcceptsEmptyBody | models/User.js:83-87 | the empty body passes update validation |
| Validation.UpdateUserRefusesOtherKeys | models/User.js:83-87 | any key other than username, password or bio (isAdmin, email, ...) fails update validation |
| Validation.UpdateUserRefusesEmptyBio | models/User.js:86 | an empty-string bio is refused |
| Validation.UpdateUserBioBounds | models/User.js:86 | a lone bio passes exactly when it is non-empty and at most 500 characters, spaces counted |
| Validation.ValidatePost | models/Post.js:52-60 | accepts exactly the bodies with only title (trimmed 2..100), description (trimmed at least 10) and an ObjectId-valid category; a refusal carries joi's first issue for the post schema |
| Validation.ValidatePostUpdate | models/Post.js:63-71 | the same bounds with every key optional; a refusal carries joi's first issue for the post-update schema |
| Validation.PostCreateBodyIsUpdateBody | models/Post.js:52-71 | every body the create validator accepts, the update validator accepts |
| Validation.PostValidatorsRefuseOwnedKeys | models/Post.js:53-57 | a body carrying user, image or likes fails both post validators |
| Validation.PostUpdateAcceptsEmptyBody | models/Post.js:63-71 | the empty body passes post-update validation |
| Validation.ValidateCategory | models/Category.js:22-28 | accepts exactly the bodies with only `category`, trimmed length 2..50; yields the raw string; a refusal carries joi's first issue for the category schema |
| Validation.CategoryMissingIsRequired | models/Category.js:24 | a body without `category` fails with `"category" is required` |
| Validation.CategoryRefusesOtherKeys | models/Category.js:23-25 | any key besides `category` fails validation |
| Validation.CategoryValidatorWithinSchema | models/Category.js:7-13 | every accepted value meets the schema's trimmed 2..50 bounds |
| Store.NewUser | models/User.js:29-48 | a new user has the given id, username, email and password, is neither admin nor verified, has the default avatar with a null public id, and no bio |
| Store.NewPost | models/Post.js:31-43 | a new post holds the given id, title, description, author and category; its image is the given one or `{url: "", public_id: ""}`; likes start empty |
| Store.InsertUser | models/User.js:11-25 | saving a user succeeds exactly when no stored user shares its id, username or email, and keeps the unique indexes |
| Store.ReplaceUser | models/User.js:11 | rewriting a user succeeds exactly when no other user holds the new username, and keeps the unique indexes |
| AuthController.FindByEmail | controllers/AuthController.js:18 | finds the first user whose email equals the query once both are trimmed, as the schema's trim setter (models/User.js:23) does to each; none exactly when no user's does |
| AuthController.FindByEmailIgnoresPadding | controllers/AuthController.js:51 | emails differing only in surrounding whitespace find the same user, so a padded email signs in |
| AuthController.GenerateToken | models/User.js:55-57 | the token verifies to exactly `{id, isAdmin}` of the user |
| AuthController.Signup | controllers/AuthController.js:11-37 | invalid body: 400 with joi's first message; known email: 400 "User already exists"; 201 "User created successfully" exactly when the body is valid, the email is new and no index clashes, adding exactly one user; otherwise the world is unchanged |
| AuthController.SignupStoresNewUser | controllers/AuthController.js:22-31 | the added user has the body's username and email, the hash of the raw password (which the password matches), and is neither admin nor verified |
| AuthController.SignupChecksOnlyEmail | controllers/AuthController.js:18-19 | a taken username with a new email is not refused by the controller; the save fails (500) and nothing is stored |
| AuthController.SignupKeepsAdmins | controllers/AuthController.js:26-30 | signup never changes the set of administrator ids |
| AuthController.Signin | controllers/AuthController.js:45-74 | never changes the world; 200 exactly when the body is valid, the email is stored (compared trimmed) and the password matches the stored hash, answering the token and `{_id, profilePic, isAdmin}` with no password |
| AuthController.SigninFailuresIndistinguishable | controllers/AuthController.js:51-56 | an unknown email and a wrong password get the identical 400 "Invalid email or password" |
| AuthController.SigninTokenIdentifiesUser | controllers/AuthController.js:59-72 | the token handed out verifies to the returned id and admin flag, which are the found user's, whose email matches the one sent once trimmed |
| UsersController.GetUsers | controllers/UsersController.js:11-14 | 200 with every stored user, in order, password removed; nothing changes |
| UsersController.FindById | controllers/UsersController.js:24 | finds a user exactly when one has the same ObjectId as the given id, hex case ignored |
| UsersController.GetUserById | controllers/UsersController.js:23-29 | a malformed id: 500; 404 "User not found" for an unknown id; 200 with that user minus password exactly when one has the same ObjectId (hex case ignored); nothing changes |
| UsersController.SetField | controllers/UsersController.js:47-53 | a supplied value is written; an undefined one keeps or clears the stored value according to the named Mongoose assumption |
| UsersController.HashIfPresent | controllers/UsersController.js:42-45 | a truthy password becomes its hash under the salt; an absent one stays absent |
| UsersController.Updated | controllers/UsersController.js:47-53 | a supplied username or bio is written as sent and a supplied password as its hash; id, email, avatar and flags never change; with undefined keys stripped an omitted field keeps its value |
| UsersController.UpdateUser | controllers/UsersController.js:37-57 | invalid body: 400 with joi's first message, nothing changes; malformed id: 500; unknown id: 200 null; 200 with the updated user exactly when the body is valid, the user exists and no other user holds the new username, storing the update at that user alone; a taken username gives 500 with nothing changed; id, email, avatar and flags never change |
| UsersController.UpdateUserHashesPassword | controllers/UsersController.js:42-45 | a supplied password is stored as its hash, which the password matches |
| UsersController.UpdateUserOmittedFields | controllers/UsersController.js:47-53 | an omitted bio is kept under one Mongoose behaviour and nulled under the other |
| UsersController.UpdateUserKeepsAdmins | controllers/UsersController.js:47-53 | updating a profile never changes the set of administrator ids |
| UsersController.GetUsersCount | controllers/UsersController.js:64-67 | 200 with `{count}` equal to the number of stored users |
| CategoryController.SortByName | controllers/CategoryController.js:33 | the result is sorted ascending by name and is a permutation of the input |
| CategoryController.Insert | controllers/CategoryController.js:33 | inserting into a sorted sequence keeps it sorted and adds exactly that one element |
| CategoryController.GetCategories | controllers/CategoryController.js:32-35 | 200 with every stored category, each once, ascending by name; nothing changes |
| CategoryController.CreateCategory | controllers/CategoryController.js:12-22 | invalid body: 400 with the bare message, nothing changes; 200 exactly when valid and the id is fresh, adding exactly one category named by the raw body value and answering it |
| CategoryController.CreateCategoryAllowsDuplicateNames | controllers/CategoryController.js:16-20 | creating the same name twice stores two categories with that name |
| CategoryController.GetCategoriesCount | controllers/CategoryController.js:43-46 | 200 with `{count}` equal to the number of stored categories |
| PostController.FindCategory | controllers/PostController.js:36 | finds the first category with the same ObjectId as the given id, hex case ignored; none exactly when no category has it |
| PostController.FindCategoryIgnoresHexCase | controllers/PostController.js:36 | ids differing only in the case of their hex digits find the same category |
| PostController.CreatePost | controllers/PostController.js:16-59 | no file: 400 "Please upload an image"; invalid body: 400 with joi's message as a JSON string; both with nothing uploaded; a failed upload: 500 with the world unchanged; unknown category: 400 "Invalid category" after the upload; 201 exactly when every check passes, adding exactly one post and removing the staged file; posts and staged files change only on 201 |
| PostController.HostAndSave | controllers/PostController.js:33-55 | a failed upload is a 500 that changes nothing; otherwise the image is logged, an unknown category is 400 "Invalid category", and 201 exactly when the category exists, a caller is attached and the id is fresh, appending exactly the built post |
| PostController.SavePost | controllers/PostController.js:35-58 | after the upload: unknown category 400 with the upload kept; 201 exactly when the category exists, a caller is attached and the id is fresh, appending the post and unstaging the file |
| PostController.UploadPrecedesCategoryCheck | controllers/PostController.js:29-39 | with an unknown category the image is hosted anyway, no post is created and the staged file stays |
| PostController.CreatedPostFields | controllers/PostController.js:42-55 | the created post has the body's title and description, the body's category in lower-case hex naming a stored category, the caller's id as author, the hosted image and no likes |
| Uploads.ImageFileFilter | middlewares/uploadImages.js:22-30 | a file is kept exactly when its MIME type starts with "image"; otherwise the error is "Unsupported image format, please try again..." |
| Uploads.AvatarFileFilter | middlewares/uploadAvatar.js:22-28 | the avatar filter keeps a file exactly when its MIME type starts with "image", with the same message |
| Uploads.FileFiltersAgree | middlewares/uploadAvatar.js:22-28 | both uploaders filter every file identically |
| Uploads.StoredName | middlewares/uploadImages.js:13-14 | the stored name is the timestamp with each ':' replaced by '-', then '-', then the original name; lengths add up |
| Uploads.StoredNameParts | middlewares/uploadAvatar.js:13 | the timestamp part keeps its length and holds no ':', and the name ends with the original name |
| Uploads.StoredNameInjective | middlewares/uploadImages.js:13-14 | within one timestamp, distinct original names give distinct stored names |
| Uploads.ImageFilename | middlewares/uploadImages.js:9-16 | a missing file is the error "No file provided"; a file gets its stored name |
| Uploads.AvatarFilename | middlewares/uploadAvatar.js:9-16 | a missing file is declined without an error; a file gets its stored name |
| Uploads.FilenamesAgreeOnFiles | middlewares/uploadAvatar.js:10-14 | both uploaders name a file alike and differ only on a missing one |
| Uploads.StageImage | middlewares/uploadImages.js:20-32 | no part: continue unchanged; refused exactly when the type lacks the "image" prefix or the size exceeds 2097152 bytes (500); otherwise `req.file` and the staged set get the stored name |
| Routes.Serve | routes/UsersRoute.js:7-15 | each endpoint runs its guard chain (the user routes here, and the chains of routes/CategoriesRoute.js:10-13 and routes/PostsRoute.js:7 alike); only signup and profile update change users, only category creation changes categories, only post creation changes posts or uploads; the unique indexes are kept |
| Routes.UserListingIsAdminOnly | routes/UsersRoute.js:7-15 | listing and counting users answer 200 exactly for an admin token, 401 without a valid token, 403 for a non-admin, and change nothing |
| Routes.ShowUserNeedsNoCredential | routes/UsersRoute.js:11 | reading a profile is independent of the authorization header and attached identity; a malformed id gets 400 |
| Routes.UpdateProfileIsOwnerOnly | routes/UsersRoute.js:12 | a malformed id gets 400 even without a token; no valid token 401; another user's id 403; only the owner reaches `updateUser`, and only then can the world change |
| Routes.AddCategoryIsAdminOnly | routes/CategoriesRoute.js:10 | no token 401 and a non-admin 403, both creating nothing; an admin reaches `createCategory` with its validation |
| Routes.CategoryReadsArePublic | routes/CategoriesRoute.js:10-13 | listing and counting categories answer 200 whatever the request carries |
| Routes.AddPostNeedsToken | routes/PostsRoute.js:7 | without a valid token: 401 before multer, nothing staged, uploaded or created |
| Routes.AddPostHasNoRoleCheck | routes/PostsRoute.js:7 | any authenticated caller, admin or not, goes through multer and reaches `createPost` with its identity attached; with no file part that is the 400 "Please upload an image" |
| Routes.AddPostIgnoresAdminFlag | routes/PostsRoute.js:7 | two requests whose tokens name the same user id get the same outcome, whatever the admin flag says |
| PostController.CreatePostReadsOnlyAuthorId | controllers/PostController.js:45 | of the attached identity only the id reaches the post, so the admin flag never changes the outcome |
| Routes.AddPostAuthorIsCaller | routes/PostsRoute.js:7 | a created post is appended and its author is the id the token names |
| Routes.AdminsNeverChange | routes/UsersRoute.js:10-12 | no endpoint changes the set of administrator ids, including the category and post routes of routes/CategoriesRoute.js:10-13 and routes/PostsRoute.js:7 |
| Scenarios.SignupThenSignin | controllers/AuthController.js:11-74 | after a successful signup the same credentials sign in as the new, non-admin user with the default avatar, and the token verifies to that identity |
| Scenarios.NewUserTokenReach | routes/UsersRoute.js:12 | a new user's token reaches `updateUser` for its own id and is refused 403 on category creation |

## Left out

- Server start-up, configuration loading and the database connection: pure I/O.
- The Cloudinary wrapper: only the result of an upload is modelled, as an entry appended to
  the world's asset log. `cloudinaryRemove` is never called by the modelled code.
- Multipart parsing, the disk writes and `fs.unlinkSync`. A staged file is a name in a set.
  The unlink after the 201 response is modelled as removing that name.
- The race between signup's email check and the save: concurrency.
- Timestamps (`createdAt`/`updatedAt`) and the `iat` claim that jsonwebtoken adds to every
  token: clock values no decision reads.
- Schema-level trimming on save and on update. The store keeps the raw body strings for
  `username`, `email`, `bio`, post titles and descriptions, and category names. Joi already
  bounds the trimmed values, so no save fails on length. The email lookup trims both the
  stored and the queried email, as Mongoose's setter does to the query.
- AuthController.Signup: because the store is untrimmed, a username that differs from a
  stored one only by surrounding whitespace (`" bob"` beside `"bob"`) is stored as a second
  user with 201. The program trims before the unique index compares, so it answers 500. A
  padded email does not diverge: the lookup compares trimmed emails, so it is refused with
  400 "User already exists" as in the program.
- UsersController.UpdateUser: for the same reason, a new username padded with whitespace
  passes the model's uniqueness check against the stored name. The program trims it and the
  unique index refuses it (500).
- Validation.Validate: a JSON array body, which `express.json` accepts and joi refuses with
  `"value" must be of type object`, is not representable: a body is a list of object
  members.
- PostController.CreatePost: the author is stored as the token's id string. Mongoose casts it
  to an ObjectId, which for the tokens the server issues is the same string.
- Post listing, post update and delete, user deletion, the avatar upload endpoint and likes:
  no code for them exists.
- `Text.Trim`: removes only the ASCII whitespace characters, not the Unicode spaces that
  JavaScript's `trim` also removes.
- Joi and schema lengths count code points here. JavaScript counts UTF-16 code units, which
  differ only for characters outside the Basic Multilingual Plane.
- `Externals.Env`: joi-objectid's 24-hex pattern and Mongoose's `ObjectId.isValid` are one
  predicate `isObjectId`. They differ on 12-character strings, which `isValid` accepts and
  the pattern refuses.
- `CategoryController.GetCategories`: categories with equal names come back in insertion order
  here. MongoDB leaves that order unspecified. The contract states only sortedness and
  permutation. Category names are stored untrimmed, while the schema trims them on save, so
  a padded name sorts by its raw form: `" zeta"` comes before `"alpha"` here, where the
  program stores and sorts `"zeta"` after `"alpha"`.
- Express's default error handler: only its status 500 is modelled. The HTML error page is
  not.

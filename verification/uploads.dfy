/** middlewares/uploadImages.js and middlewares/uploadAvatar.js: multer's `fileFilter` and
    `filename` callbacks, the size limit, and the `single('image')` step they configure. */
module Uploads {
  import opened Base
  import opened Text
  import opened Store
  import opened Http

  /** `limits: { fileSize: 1024 * 1024 * 2 }`, in bytes. */
  const MaxFileBytes: nat := 1024 * 1024 * 2

  const UnsupportedFormat: string := "Unsupported image format, please try again..."
  const NoFileProvided: string := "No file provided"
  /** The message of multer's LIMIT_FILE_SIZE error. */
  const FileTooLarge: string := "File too large"

  /** How a `fileFilter` answers: `cb(null, true)` or `cb(error, false)`. */
  datatype FilterResult = Keep | Refuse(error: string)

  /** How a `filename` callback answers: `cb(null, name)`, `cb(null, false)` or `cb(error)`. */
  datatype NameResult = Named(filename: string) | NoName | NameError(error: string)

  /** `fileFilter` of uploadImages.js. */
  function ImageFileFilter(file: FilePart): (r: FilterResult)
    ensures r.Keep? <==> StartsWith(file.mimeType, "image")
    ensures r.Refuse? ==> r.error == UnsupportedFormat
  {
    if !StartsWith(file.mimeType, "image") then Refuse(UnsupportedFormat) else Keep
  }

  /** `fileFilter` of uploadAvatar.js. */
  function AvatarFileFilter(file: FilePart): (r: FilterResult)
    ensures r.Keep? <==> StartsWith(file.mimeType, "image")
    ensures r.Refuse? ==> r.error == UnsupportedFormat
  {
    if !StartsWith(file.mimeType, "image") then Refuse(UnsupportedFormat) else Keep
  }

  /** Both uploaders filter files the same way. */
  lemma FileFiltersAgree(file: FilePart)
    ensures ImageFileFilter(file) == AvatarFileFilter(file)
  {
  }

  /** The name a staged file gets: the upload time with every colon turned into a dash, a
      dash, then the client's own file name. */
  function StoredName(isoTime: string, originalName: string): (r: string)
    ensures |r| == |isoTime| + 1 + |originalName|
    ensures forall i :: 0 <= i < |isoTime| ==> r[i] == (if isoTime[i] == ':' then '-' else isoTime[i])
    ensures r[|isoTime|] == '-'
    ensures r[|isoTime| + 1..] == originalName
  {
    ReplaceAll(isoTime, ':', '-') + "-" + originalName
  }

  /** The timestamp part of a stored name keeps the timestamp's length and has no colon, and
      the name ends with the client's file name, which can be read back from it. */
  lemma StoredNameParts(isoTime: string, originalName: string)
    ensures var r := StoredName(isoTime, originalName);
            && ':' !in r[..|isoTime|]
            && |r[..|isoTime|]| == |isoTime|
            && r == r[..|isoTime|] + "-" + originalName
  {
    var r := StoredName(isoTime, originalName);
    assert forall i :: 0 <= i < |isoTime| ==> r[..|isoTime|][i] != ':';
    assert r == r[..|isoTime|] + [r[|isoTime|]] + r[|isoTime| + 1..];
  }

  /** Within one timestamp, distinct client names give distinct stored names. */
  lemma StoredNameInjective(isoTime: string, a: string, b: string)
    requires StoredName(isoTime, a) == StoredName(isoTime, b)
    ensures a == b
  {
    assert a == StoredName(isoTime, a)[|isoTime| + 1..];
  }

  /** `filename` of uploadImages.js. */
  function ImageFilename(file: Option<FilePart>, isoTime: string): (r: NameResult)
    ensures file.None? <==> r == NameError(NoFileProvided)
    ensures file.Some? ==> r == Named(StoredName(isoTime, file.value.originalName))
  {
    match file
    case None => NameError(NoFileProvided)
    case Some(f) => Named(StoredName(isoTime, f.originalName))
  }

  /** `filename` of uploadAvatar.js: a missing file is declined without an error. */
  function AvatarFilename(file: Option<FilePart>, isoTime: string): (r: NameResult)
    ensures file.None? <==> r == NoName
    ensures file.Some? ==> r == Named(StoredName(isoTime, file.value.originalName))
  {
    match file
    case None => NoName
    case Some(f) => Named(StoredName(isoTime, f.originalName))
  }

  /** Both uploaders name a file alike and differ only on a missing one. */
  lemma FilenamesAgreeOnFiles(file: Option<FilePart>, isoTime: string)
    ensures file.Some? ==> ImageFilename(file, isoTime) == AvatarFilename(file, isoTime)
    ensures file.None? ==> ImageFilename(file, isoTime).NameError? && AvatarFilename(file, isoTime).NoName?
  {
  }

  /** What `handleUpload.single("image")` leaves: the request and world to continue with, or
      the response Express's default error handler writes for a multer error. */
  datatype Staging = Staged(req: Request, world: World) | Rejected(response: Response)

  /** `handleUpload.single("image")`: filter, name, size limit, then the file is staged in the
      upload directory and attached as `req.file`. With no file part it simply continues. */
  function StageImage(req: Request, w: World, isoTime: string): (r: Staging)
    ensures req.part.None? ==> r == Staged(req, w)
    ensures r.Staged? && req.part.Some? ==>
      var p := req.part.value;
      var name := StoredName(isoTime, p.originalName);
      && StartsWith(p.mimeType, "image") && p.size <= MaxFileBytes
      && r.req == req.(file := Some(StagedFile(name, p.originalName, p.mimeType, p.size)))
      && r.world == w.(staged := w.staged + {name})
    ensures r.Rejected? <==>
      req.part.Some? && (!StartsWith(req.part.value.mimeType, "image") || req.part.value.size > MaxFileBytes)
    ensures r.Rejected? ==> r.response.status == 500
  {
    match req.part
    case None => Staged(req, w)
    case Some(p) =>
      match ImageFileFilter(p)
      case Refuse(e) => Rejected(Response(500, ServerError(e)))
      case Keep =>
        match ImageFilename(req.part, isoTime)
        case Named(name) =>
          if p.size > MaxFileBytes then Rejected(Response(500, ServerError(FileTooLarge)))
          else Staged(req.(file := Some(StagedFile(name, p.originalName, p.mimeType, p.size))),
                      w.(staged := w.staged + {name}))
        case _ => Rejected(Response(500, ServerError(NoFileProvided)))
  }
}

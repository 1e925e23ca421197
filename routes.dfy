/**
 * The router: multer's file filter, its size limit and the name it stores an upload under, and the
 * three routes with the middleware each runs before its handler.
 */
module Routes {
  import opened Wrappers
  import opened JsValues
  import opened JsNumbers
  import opened CreditReportModel
  import opened Http
  import opened Validation
  import opened ReportController

  /** `limits.fileSize`: 5 MiB. */
  const MaxFileSize: nat := 5 * 1024 * 1024

  /** The directory the disk storage writes into. */
  const UploadsPrefix := "uploads/"

  /** The `fileFilter`: an exact XML MIME type, or a name ending in ".xml". */
  predicate FileFilter(mimetype: string, originalname: string)
  {
    mimetype == "application/xml" || EndsWith(originalname, ".xml")
  }

  /** The disk storage's `filename`: the upload time in milliseconds, "-", and the client's file name. */
  function StoredFileName(now: nat, originalname: string): (name: string)
    ensures EndsWith(name, originalname)
    ensures |name| > |originalname| + 1 && name[|name| - |originalname| - 1] == '-'
    ensures AllDigits(name[..|name| - |originalname| - 1])
  {
    var stamp := NatToDecimal(now);
    var name := stamp + "-" + originalname;
    assert name[..|name| - |originalname| - 1] == stamp;
    assert name[|name| - |originalname|..] == originalname;
    name
  }

  /** `parseInt` of the stored name gives back the upload time, whatever the client's name is. */
  lemma StoredFileNameKeepsTime(now: nat, originalname: string)
    ensures ParseInt(StoredFileName(now, originalname)) == Some(now)
  {
    var stamp := NatToDecimal(now);
    assert StoredFileName(now, originalname) == stamp + ("-" + originalname);
    ParseIntOfDigits(stamp, "-" + originalname);
  }

  /** A part of a multipart request body that carries a file: its form field, the client's name and MIME
      type, its size, and what xml2js makes of its bytes. */
  datatype FilePart = FilePart(
    fieldname: string,
    originalname: string,
    mimetype: string,
    size: nat,
    document: Option<JsVal>)

  /** The three routes: POST /upload with at most one file part, GET /reports, and GET /reports/:id with
      the identifier the parameter casts to (`None` when the text is not a well-formed identifier). */
  datatype Request =
    | UploadRequest(part: Option<FilePart>)
    | ListRequest
    | ShowRequest(requested: Option<nat>)

  /** `req.file` once the disk storage has written `part` into `uploads/` at time `now`. */
  function Staged(part: FilePart, now: nat): (f: UploadedFile)
    ensures f.originalname == part.originalname && f.mimetype == part.mimetype && f.size == part.size
    ensures f.document == part.document
    ensures f.path == UploadsPrefix + StoredFileName(now, part.originalname)
  {
    UploadedFile(part.originalname, part.mimetype, part.size, UploadsPrefix + StoredFileName(now, part.originalname),
      part.document)
  }

  /** What multer does with the body before the next middleware: `Ok(req.file)` (`None` when the body has no
      file), or the error it hands to Express, which answers 500. */
  function Receive(part: Option<FilePart>, now: nat): (r: Result<Option<UploadedFile>, string>)
    ensures r.Ok? <==> part.None? || (part.value.fieldname == "file"
                                      && FileFilter(part.value.mimetype, part.value.originalname)
                                      && part.value.size <= MaxFileSize)
    ensures r.Ok? && part.Some? ==> r.value == Some(Staged(part.value, now))
    ensures part.None? ==> r == Ok(None)
  {
    if part.None? then Ok(None)
    else
      var p := part.value;
      if p.fieldname != "file" then Err("Unexpected field")
      else if !FileFilter(p.mimetype, p.originalname) then Err("Only XML files are allowed")
      else if p.size > MaxFileSize then Err("File too large")
      else Ok(Some(Staged(p, now)))
  }

  /** A file the filter admits only for its MIME type is still refused by `validateUpload`, and then stays
      in `uploads/`. */
  lemma MimetypeOnlyFileRefused(part: FilePart, now: nat)
    requires part.fieldname == "file" && part.size <= MaxFileSize
    requires part.mimetype == "application/xml" && !EndsWith(part.originalname, ".xml")
    ensures Receive(Some(part), now) == Ok(Some(Staged(part, now)))
    ensures ValidateUpload(Some(Staged(part, now))) == Some(Response(400, FieldErrors(["Only XML files are allowed"])))
  {
  }

  /** Every file that reaches `validateUpload` with a name ending in ".xml" passes it. */
  lemma XmlNamedFilePassesValidation(part: FilePart, now: nat)
    requires Receive(Some(part), now).Ok?
    requires EndsWith(part.originalname, ".xml")
    ensures ValidateUpload(Receive(Some(part), now).value).None?
  {
  }

  /** Without a file the request never reaches `uploadXML`: the validation middleware answers first, with the
      message under `errors`. */
  lemma NoFileAnsweredByValidation(now: nat)
    ensures Receive(None, now) == Ok(None)
    ensures ValidateUpload(None) == Some(Response(400, FieldErrors(["No file uploaded"])))
  {
  }

  /** Multer and `validateUpload`: the file `uploadXML` is handed, or the response sent instead. A file
      multer stores stays in `uploads/` whether or not validation lets it through. */
  method Admit(dir: UploadsDir, part: Option<FilePart>, now: nat) returns (r: Result<UploadedFile, Response>)
    modifies dir
    ensures Receive(part, now).Err? ==>
      r == Err(Response(500, Unhandled(Receive(part, now).error))) && dir.files == old(dir.files)
    ensures part.None? ==> r == Err(Response(400, FieldErrors(["No file uploaded"]))) && dir.files == old(dir.files)
    ensures Receive(part, now).Ok? && part.Some? ==>
      var f := Staged(part.value, now);
      && dir.files == old(dir.files) + {f.path}
      && (EndsWith(f.originalname, ".xml") ==> r == Ok(f))
      && (!EndsWith(f.originalname, ".xml") ==> r == Err(Response(400, FieldErrors(["Only XML files are allowed"]))))
  {
    var received := Receive(part, now);
    if received.Err? {
      return Err(Response(500, Unhandled(received.error)));
    }
    if received.value.Some? {
      dir.files := dir.files + {received.value.value.path};
    }
    var refused := ValidateUpload(received.value);
    if refused.Some? {
      return Err(refused.value);
    }
    r := Ok(received.value.value);
  }

  /** POST /upload: multer, then `validateUpload`, then `uploadXML`. Multer's errors reach Express's final
      handler (500); a file that multer stored stays in `uploads/` unless the upload succeeds. */
  method Upload(db: Collection, dir: UploadsDir, part: Option<FilePart>, now: nat) returns (res: Response)
    requires db.Valid()
    modifies db, dir
    ensures db.Valid()
    ensures Receive(part, now).Err? ==>
      && res == Response(500, Unhandled(Receive(part, now).error))
      && db.reports == old(db.reports) && dir.files == old(dir.files)
    ensures part.None? ==>
      && res == Response(400, FieldErrors(["No file uploaded"]))
      && db.reports == old(db.reports) && dir.files == old(dir.files)
    ensures Receive(part, now).Ok? && part.Some? ==>
      var f := Staged(part.value, now);
      && (!EndsWith(f.originalname, ".xml") ==>
            && res == Response(400, FieldErrors(["Only XML files are allowed"]))
            && db.reports == old(db.reports) && dir.files == old(dir.files) + {f.path})
      && (EndsWith(f.originalname, ".xml") && ProcessDocument(f.document, now).Ok? ==>
            && res == Response(201, Processed("Credit report processed successfully", old(db.nextId)))
            && db.reports == old(db.reports) + [StoredReport(old(db.nextId), ProcessDocument(f.document, now).value)]
            && dir.files == old(dir.files) + {f.path} - {f.path})
      && (EndsWith(f.originalname, ".xml") && ProcessDocument(f.document, now).Err? ==>
            && res == Response(500, ErrorMessage("Error processing XML file"))
            && db.reports == old(db.reports) && dir.files == old(dir.files) + {f.path})
  {
    var admitted := Admit(dir, part, now);
    if admitted.Err? {
      return admitted.error;
    }
    res := UploadXML(db, dir, Some(admitted.value), now);
  }

  /** The router: each request goes to the handler chain of its route. */
  method Handle(db: Collection, dir: UploadsDir, req: Request, now: nat) returns (res: Response)
    requires db.Valid()
    modifies db, dir
    ensures db.Valid()
    ensures !req.UploadRequest? ==> db.reports == old(db.reports) && dir.files == old(dir.files)
    ensures req.ListRequest? ==> res.status == 200 && res.body.ReportList? && NewestPage(res.body.reports, db.reports)
    ensures req.ShowRequest? && req.requested.None? ==> res == Response(500, ErrorMessage("Error fetching report"))
    ensures req.ShowRequest? && req.requested.Some? ==>
      (res.status == 200 <==> exists i :: 0 <= i < |db.reports| && db.reports[i].id == req.requested.value)
    ensures req.ShowRequest? && req.requested.Some? && res.status == 200 ==>
      res.body.OneReport? && res.body.report in db.reports && res.body.report.id == req.requested.value
    ensures req.ShowRequest? && req.requested.Some? && res.status != 200 ==>
      res == Response(404, ErrorMessage("Report not found"))
    ensures req.UploadRequest? && Receive(req.part, now).Err? ==>
      && res == Response(500, Unhandled(Receive(req.part, now).error))
      && db.reports == old(db.reports) && dir.files == old(dir.files)
    ensures req.UploadRequest? && req.part.None? ==>
      && res == Response(400, FieldErrors(["No file uploaded"]))
      && db.reports == old(db.reports) && dir.files == old(dir.files)
    ensures req.UploadRequest? && Receive(req.part, now).Ok? && req.part.Some? ==>
      var f := Staged(req.part.value, now);
      && (!EndsWith(f.originalname, ".xml") ==>
            && res == Response(400, FieldErrors(["Only XML files are allowed"]))
            && db.reports == old(db.reports) && dir.files == old(dir.files) + {f.path})
      && (EndsWith(f.originalname, ".xml") && ProcessDocument(f.document, now).Ok? ==>
            && res == Response(201, Processed("Credit report processed successfully", old(db.nextId)))
            && db.reports == old(db.reports) + [StoredReport(old(db.nextId), ProcessDocument(f.document, now).value)]
            && dir.files == old(dir.files) + {f.path} - {f.path})
      && (EndsWith(f.originalname, ".xml") && ProcessDocument(f.document, now).Err? ==>
            && res == Response(500, ErrorMessage("Error processing XML file"))
            && db.reports == old(db.reports) && dir.files == old(dir.files) + {f.path})
  {
    match req
    case ListRequest =>
      res := GetReports(db);
    case ShowRequest(requested) =>
      res := GetReportById(db, requested);
    case UploadRequest(part) =>
      res := Upload(db, dir, part, now);
  }
}

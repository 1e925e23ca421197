/**
 * The three request handlers of the report controller, over the CreditReport collection and the
 * `uploads/` directory: `uploadXML` (read the staged file, extract, save, remove the staged file),
 * `getReports` (the ten newest reports) and `getReportById`.
 */
module ReportController {
  import opened Wrappers
  import opened JsValues
  import opened CreditReportModel
  import opened CreditExtractor
  import opened Http

  /** Why an upload that got past the missing-file check ends in 500. */
  datatype ProcessError =
    | Malformed               // the parser rejects the bytes
    | ExtractFailed(extractError: ExtractError)
    | SaveFailed(saveError: SaveError)

  /** The steps between reading the staged file and `save()`, on the parse result of the file: the
      document that is written, or why the upload fails. */
  function ProcessDocument(document: Option<JsVal>, now: int): (r: Result<CreditReport, ProcessError>)
    ensures r.Ok? <==> document.Some? && ExtractCreditData(document.value).Ok?
                       && ReportCastable(ExtractCreditData(document.value).value)
    ensures r.Ok? ==> r.value == CastReport(ExtractCreditData(document.value).value, now).value
  {
    if document.None? then Err(Malformed)
    else
      var data := ExtractCreditData(document.value);
      if data.Err? then Err(ExtractFailed(data.error))
      else
        var doc := CastReport(data.value, now);
        if doc.Err? then Err(SaveFailed(doc.error)) else Ok(doc.value)
  }

  /** An upload of a readable, well-formed file succeeds exactly when the extractor accepts the document
      and the text leaves it hands over unchanged are acceptable to their String paths; what is then
      saved passes validation and carries the upload time. */
  lemma ProcessedIff(document: JsVal, now: int)
    ensures ProcessDocument(Some(document), now).Ok? <==>
              ExtractCreditData(document).Ok? && TextLeaves(Prop(document, "INProfileResponse"))
    ensures ProcessDocument(Some(document), now).Ok? ==>
              var doc := ProcessDocument(Some(document), now).value;
              ValidDocument(doc) && doc.uploadedAt == now
  {
    if ExtractCreditData(document).Ok? {
      ExtractedReportSaves(document, now);
    }
  }

  /** An upload fails when the document has no INProfileResponse, whatever else it holds. */
  lemma MissingRootFails(document: JsVal, now: int)
    requires !Truthy(Prop(document, "INProfileResponse"))
    ensures ProcessDocument(Some(document), now).Err?
  {
  }

  /** An upload fails when the account list is a single element rather than an array. */
  lemma SingleAccountFails(document: JsVal, now: int)
    requires Get(Prop(document, "INProfileResponse"), AccountDetailsPath).Obj?
    ensures ProcessDocument(Some(document), now).Err?
  {
    var root := Prop(document, "INProfileResponse");
    GetUndef(AccountDetailsPath);
    assert root != Undef;
    SingleAccountThrows(document, Get(root, AccountDetailsPath).fields);
  }

  /** `uploadXML`: without a file, 400; otherwise the report is saved and the staged file removed (201),
      or nothing changes at all and the answer is 500. */
  method UploadXML(db: Collection, dir: UploadsDir, file: Option<UploadedFile>, now: int) returns (res: Response)
    requires db.Valid()
    modifies db, dir
    ensures db.Valid()
    ensures file.None? ==> && res == Response(400, ErrorMessage("No file uploaded"))
                           && db.reports == old(db.reports) && dir.files == old(dir.files)
    ensures file.Some? && file.value.path !in old(dir.files) ==>
      && res == Response(500, ErrorMessage("Error processing XML file"))
      && db.reports == old(db.reports) && dir.files == old(dir.files)
    ensures file.Some? && file.value.path in old(dir.files) ==>
      var outcome := ProcessDocument(file.value.document, now);
      && (outcome.Ok? ==>
            && res == Response(201, Processed("Credit report processed successfully", old(db.nextId)))
            && db.reports == old(db.reports) + [StoredReport(old(db.nextId), outcome.value)]
            && dir.files == old(dir.files) - {file.value.path})
      && (outcome.Err? ==>
            && res == Response(500, ErrorMessage("Error processing XML file"))
            && db.reports == old(db.reports) && dir.files == old(dir.files))
  {
    if file.None? {
      return Response(400, ErrorMessage("No file uploaded"));
    }
    var f := file.value;
    if f.path !in dir.files || f.document.None? {
      return Response(500, ErrorMessage("Error processing XML file"));
    }
    var data := ExtractCreditData(f.document.value);
    if data.Err? {
      return Response(500, ErrorMessage("Error processing XML file"));
    }
    res := SaveAndRemove(db, dir, data.value, f.path, now);
  }

  /** Lines 27-36 of `uploadXML`: save the extracted report, then remove the staged file and answer 201;
      a rejected document leaves both the collection and the directory as they were and answers 500. */
  method SaveAndRemove(db: Collection, dir: UploadsDir, inp: ReportInput, path: string, now: int) returns (res: Response)
    requires db.Valid()
    modifies db, dir
    ensures db.Valid()
    ensures ReportCastable(inp) ==>
      && res == Response(201, Processed("Credit report processed successfully", old(db.nextId)))
      && db.reports == old(db.reports) + [StoredReport(old(db.nextId), CastReport(inp, now).value)]
      && dir.files == old(dir.files) - {path}
    ensures !ReportCastable(inp) ==>
      && res == Response(500, ErrorMessage("Error processing XML file"))
      && db.reports == old(db.reports) && dir.files == old(dir.files)
  {
    var saved := db.Create(inp, now);
    if saved.Err? {
      return Response(500, ErrorMessage("Error processing XML file"));
    }
    dir.files := dir.files - {path};
    res := Response(201, Processed("Credit report processed successfully", saved.value.id));
  }

  // ----- The newest reports -----

  /** `.limit(10)` */
  const PageSize: nat := 10

  /** `.sort({ uploadedAt: -1 })`: newest first. */
  predicate NewestFirst(s: seq<StoredReport>)
  {
    forall i, j :: 0 <= i < j < |s| ==> s[i].report.uploadedAt >= s[j].report.uploadedAt
  }

  /** The ten newest reports: as many as there are up to ten, newest first, each taken from the
      collection, and none left out that is newer than one listed. */
  predicate NewestPage(page: seq<StoredReport>, reports: seq<StoredReport>)
  {
    && |page| == (if |reports| < PageSize then |reports| else PageSize)
    && NewestFirst(page)
    && multiset(page) <= multiset(reports)
    && forall x, y :: x in multiset(reports) - multiset(page) && y in page ==>
         y.report.uploadedAt >= x.report.uploadedAt
  }

  /** Places `x` before the first report that is no newer. */
  function InsertNewest(x: StoredReport, s: seq<StoredReport>): (r: seq<StoredReport>)
    requires NewestFirst(s)
    ensures NewestFirst(r)
    ensures multiset(r) == multiset(s) + multiset{x}
    ensures |r| == |s| + 1
    ensures forall k :: 0 <= k < |r| ==> r[k] == x || r[k] in s
    decreases |s|
  {
    if s == [] || x.report.uploadedAt >= s[0].report.uploadedAt then
      PrependNewest(x, s);
      [x] + s
    else
      var rest := InsertNewest(x, s[1..]);
      assert s == [s[0]] + s[1..];
      PrependNewest(s[0], rest);
      [s[0]] + rest
  }

  /** A report no older than everything in a newest-first sequence can go in front of it. */
  lemma PrependNewest(h: StoredReport, s: seq<StoredReport>)
    requires NewestFirst(s)
    requires s == [] || h.report.uploadedAt >= s[0].report.uploadedAt
    ensures NewestFirst([h] + s)
  {
    forall i, j | 0 <= i < j < |[h] + s|
      ensures ([h] + s)[i].report.uploadedAt >= ([h] + s)[j].report.uploadedAt
    {
      if i > 0 {
        assert ([h] + s)[i] == s[i - 1];
      }
      assert ([h] + s)[j] == s[j - 1];
    }
  }

  /** The collection sorted newest first. */
  function SortNewest(s: seq<StoredReport>): (r: seq<StoredReport>)
    ensures NewestFirst(r)
    ensures multiset(r) == multiset(s)
    ensures |r| == |s|
    decreases |s|
  {
    if s == [] then []
    else
      assert s == [s[0]] + s[1..];
      InsertNewest(s[0], SortNewest(s[1..]))
  }

  /** The first ten of a newest-first sequence are a page of it: nothing after them is newer. */
  lemma TopOfNewestFirst(s: seq<StoredReport>, k: nat)
    requires NewestFirst(s) && k == (if |s| < PageSize then |s| else PageSize)
    ensures NewestPage(s[..k], s)
  {
    assert multiset(s) == multiset(s[..k]) + multiset(s[k..]) by {
      assert s == s[..k] + s[k..];
    }
    assert NewestFirst(s[..k]);
    RestNoNewer(s, k);
  }

  /** In a newest-first sequence, nothing after position `k` is newer than anything before it. */
  lemma RestNoNewer(s: seq<StoredReport>, k: nat)
    requires NewestFirst(s) && k <= |s|
    ensures forall x, y :: x in multiset(s[k..]) && y in s[..k] ==> y.report.uploadedAt >= x.report.uploadedAt
  {
    forall x, y | x in multiset(s[k..]) && y in s[..k]
      ensures y.report.uploadedAt >= x.report.uploadedAt
    {
      var j :| 0 <= j < |s[k..]| && s[k..][j] == x;
      var i :| 0 <= i < k && s[i] == y;
      assert s[k + j] == x;
    }
  }

  /** What `find().sort({ uploadedAt: -1 }).limit(10)` returns. */
  function Latest(reports: seq<StoredReport>): (page: seq<StoredReport>)
    ensures NewestPage(page, reports)
  {
    var sorted := SortNewest(reports);
    var k := if |sorted| < PageSize then |sorted| else PageSize;
    TopOfNewestFirst(sorted, k);
    sorted[..k]
  }

  /** `getReports`: 200 with the ten newest reports; the collection is not changed. */
  method GetReports(db: Collection) returns (res: Response)
    requires db.Valid()
    ensures res.status == 200 && res.body.ReportList?
    ensures NewestPage(res.body.reports, db.reports)
    ensures forall i :: 0 <= i < |res.body.reports| ==> ValidDocument(res.body.reports[i].report)
  {
    var page := Latest(db.reports);
    forall i | 0 <= i < |page|
      ensures ValidDocument(page[i].report)
    {
      assert page[i] in multiset(db.reports);
      var j :| 0 <= j < |db.reports| && db.reports[j] == page[i];
    }
    res := Response(200, ReportList(page));
  }

  /** With ten or fewer reports saved, the list holds every one of them. */
  lemma SmallCollectionListedWhole(reports: seq<StoredReport>)
    requires |reports| <= PageSize
    ensures multiset(Latest(reports)) == multiset(reports)
  {
    var page := Latest(reports);
    assert multiset(page) <= multiset(reports);
    assert |multiset(page)| == |multiset(reports)|;
    MultisetSubsetSameSize(multiset(page), multiset(reports));
  }

  lemma MultisetSubsetSameSize<T>(a: multiset<T>, b: multiset<T>)
    requires a <= b && |a| == |b|
    ensures a == b
  {
    assert |b - a| == |b| - |a|;
    assert b == a + (b - a);
  }

  // ----- One report -----

  /** `getReportById`: `requested` is the identifier the route parameter casts to, `None` when the text is
      not a well-formed identifier (the cast fails and the handler answers 500). */
  method GetReportById(db: Collection, requested: Option<nat>) returns (res: Response)
    requires db.Valid()
    ensures requested.None? ==> res == Response(500, ErrorMessage("Error fetching report"))
    ensures requested.Some? ==>
      (res.status == 200 <==> exists i :: 0 <= i < |db.reports| && db.reports[i].id == requested.value)
    ensures requested.Some? && res.status == 200 ==>
      res.body.OneReport? && res.body.report in db.reports && res.body.report.id == requested.value
      && ValidDocument(res.body.report.report)
    ensures requested.Some? && res.status != 200 ==> res == Response(404, ErrorMessage("Report not found"))
  {
    if requested.None? {
      return Response(500, ErrorMessage("Error fetching report"));
    }
    var found := db.FindById(requested.value);
    if found.None? {
      return Response(404, ErrorMessage("Report not found"));
    }
    res := Response(200, OneReport(found.value));
  }
}

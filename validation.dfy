/**
 * The `validateUpload` middleware: one custom check on the uploaded file, and the step that answers
 * 400 with the collected errors or passes the request on.
 */
module Validation {
  import opened Wrappers
  import opened JsValues
  import opened Http

  /** `/\.(xml)$/` matches at position `i` of `name`: ".xml" starts there and `$` finds the end right after. */
  predicate XmlExtensionAt(name: string, i: nat)
  {
    i + 4 == |name| && name[i] == '.' && name[i + 1] == 'x' && name[i + 2] == 'm' && name[i + 3] == 'l'
  }

  /** `name.match(/\.(xml)$/)` is not null: some position matches (the pattern has no flags, so the match is
      case-sensitive and `$` is the end of the whole name). */
  predicate MatchesXmlExtension(name: string)
  {
    exists i: nat :: i <= |name| && XmlExtensionAt(name, i)
  }

  /** The regular expression accepts exactly the names that end with ".xml". */
  lemma MatchIffEndsWithXml(name: string)
    ensures MatchesXmlExtension(name) <==> EndsWith(name, ".xml")
  {
    if EndsWith(name, ".xml") {
      var i := |name| - 4;
      assert name[i..][0] == '.' && name[i..][1] == 'x' && name[i..][2] == 'm' && name[i..][3] == 'l';
      assert XmlExtensionAt(name, i);
    }
    if MatchesXmlExtension(name) {
      var i: nat :| i <= |name| && XmlExtensionAt(name, i);
      assert name[i..] == ".xml";
    }
  }

  /** The custom check: the message of the first condition the upload fails, `None` when it passes. */
  function CheckFile(file: Option<UploadedFile>): (r: Option<string>)
    ensures r.None? <==> file.Some? && EndsWith(file.value.originalname, ".xml")
    ensures file.None? ==> r == Some("No file uploaded")
    ensures file.Some? && r.Some? ==> r == Some("Only XML files are allowed")
  {
    if file.None? then Some("No file uploaded")
    else if !MatchesXmlExtension(file.value.originalname) then
      MatchIffEndsWithXml(file.value.originalname);
      Some("Only XML files are allowed")
    else
      MatchIffEndsWithXml(file.value.originalname);
      None
  }

  /** The whole middleware: `Some(400 response)` carrying the one error under `errors`, or `None` when it
      calls `next()`. */
  function ValidateUpload(file: Option<UploadedFile>): (r: Option<Response>)
    ensures r.None? <==> file.Some? && EndsWith(file.value.originalname, ".xml")
    ensures r.Some? ==> r.value.status == 400 && r.value.body.FieldErrors? && |r.value.body.errors| == 1
  {
    match CheckFile(file)
    case None => None
    case Some(message) => Some(Response(400, FieldErrors([message])))
  }

  /** The missing-file check comes first: without a file the only error is "No file uploaded". */
  lemma NoFileReportsOnlyMissingFile()
    ensures ValidateUpload(None) == Some(Response(400, FieldErrors(["No file uploaded"])))
  {
  }

  /** The extension check is case-sensitive and anchored at the end of the name. */
  lemma ExtensionExamples(f: UploadedFile)
    ensures f.originalname == "a.xml" ==> ValidateUpload(Some(f)).None?
    ensures f.originalname == "A.XML" ==> ValidateUpload(Some(f)) == Some(Response(400, FieldErrors(["Only XML files are allowed"])))
    ensures f.originalname == "a.xml.bak" ==> ValidateUpload(Some(f)) == Some(Response(400, FieldErrors(["Only XML files are allowed"])))
  {
    if f.originalname == "A.XML" {
      assert f.originalname[1] == '.' && f.originalname[2] == 'X';
    }
    if f.originalname == "a.xml.bak" {
      assert f.originalname[5..] == ".bak";
    }
  }
}

/**
 * What the request handlers exchange with Express: the uploaded file as multer describes it, the
 * responses they send, and the directory multer stages uploads in.
 */
module Http {
  import opened Wrappers
  import opened JsValues
  import opened CreditReportModel

  /** `req.file`: the client's file name and MIME type, its size in bytes, the path it was staged at, and
      what xml2js makes of its content (`None` when the bytes are not a well-formed XML document). */
  datatype UploadedFile = UploadedFile(
    originalname: string,
    mimetype: string,
    size: nat,
    path: string,
    document: Option<JsVal>)

  /** The JSON bodies the handlers send. `Unhandled` is an error handed to Express's own final handler. */
  datatype Body =
    | Processed(message: string, reportId: nat)
    | ErrorMessage(error: string)
    | FieldErrors(errors: seq<string>)
    | ReportList(reports: seq<StoredReport>)
    | OneReport(report: StoredReport)
    | Unhandled(message: string)

  datatype Response = Response(status: nat, body: Body)

  /** The `uploads/` directory: the paths of the files staged there. */
  class UploadsDir {
    var files: set<string>

    constructor ()
      ensures files == {}
    {
      files := {};
    }
  }
}

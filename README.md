# Credit report upload service — a verified model

The backend takes an uploaded XML credit report (an Experian-style `INProfileResponse` document). It
extracts the applicant, the account summary and the list of credit accounts, and stores the result
as a `CreditReport` document. It then serves the ten newest reports and single reports by
identifier. The report page in the frontend colours the credit score by band and highlights overdue
amounts.

The model has these modules:

- `JsValues` (`js_values.dfy`) holds the tree xml2js builds (`explicitArray: false`): `undefined`,
  text, element, or the array made for a repeated element. It also holds the JavaScript operations
  the extractor applies to that tree: truthiness, `||`, optional chaining, `String(v)`,
  `filter(Boolean)`, `join` and `trim`.
- `JsNumbers` (`js_numbers.dfy`) models `parseInt`, including leading blanks, a sign and a `0x`
  prefix. It models `parseFloat` as an exact decimal, and the `|| 0` default.
- `CreditReportModel` (`credit_report.dfy`) holds the schema. It includes the string cast and the
  `required` checks that `save()` performs, and the collection as a class.
- `Http` (`http.dfy`) holds the uploaded file, the response bodies and the `uploads/` directory as a
  class.
- `Validation` (`validation.dfy`) models the `validateUpload` middleware.
- `CreditExtractor` (`extract_credit_data.dfy`) models `extractCreditData`.
- `ReportController` (`report_controller.dfy`) models `uploadXML`, `getReports` and `getReportById`
  as methods over the collection and the directory.
- `Routes` (`routes.dfy`) models multer's filter, its size limit and its stored file name, and the
  three routes.
- `ReportDetail` (`report_detail.dfy`) models the score bands and the overdue colour.

The handlers take the clock reading (`Date.now()`) as a parameter. The parsed XML of an uploaded
file is part of the request: `None` stands for bytes the parser rejects.

Where the code differs from what its comments, fallbacks or tests suggest, the model follows the
code:

- The name is never "Unknown". It is `First_Name + ' ' + Last_Name`, where an absent part prints as
  "undefined". The `|| 'Unknown'` fallback can never fire (`CreditExtractor.Name`).
- A report with a single account element throws. xml2js leaves a single element unwrapped, so it is
  an object with no `map` method. The upload then answers 500 (`CreditExtractor.SingleAccountThrows`,
  `ReportController.SingleAccountFails`).
- The staged file is removed only when the upload succeeds. A rejected upload leaves it in
  `uploads/`.
- An upload without a file is answered by the validation middleware, not by `uploadXML`. The reply
  is 400 `{ errors: [...] }`, one error object per failed check. `backend/__tests__/api.test.js:41` expects a body with an `error`
  field. The model keeps the middleware's answer (`Routes.NoFileAnsweredByValidation`).
- The PAN is read from the first account element only.
- A field that is an element with attributes, or a repeated element, cannot be cast to a string.
  Saving a report that holds one fails, and the upload answers 500
  (`CreditExtractor.ExtractedReportSaves`).

## Model

| member | source | states |
|---|---|---|
| JsValues.FalsyValues | backend/controllers/reportController.js:96-98 | the only falsy values an XML tree holds are `undefined` and the empty string |
| JsValues.Or | backend/controllers/reportController.js:96-98 | `a \|\| b` gives `a` when `a` is truthy and `b` otherwise, so a truthy fallback makes the result truthy |
| JsValues.Prop | backend/controllers/reportController.js:80-85 | `v?.key` finds something only on an element that has that child, and then finds that child |
| JsValues.Get | backend/controllers/reportController.js:80-85 | an optional-chaining path that starts on anything but an element yields `undefined` |
| JsValues.GetUndef | backend/controllers/reportController.js:80-85 | a missing segment of an optional-chaining path yields `undefined` however long the rest of the path is |
| JsValues.GetAppend | backend/controllers/reportController.js:91-92 | looking a path up in two stages is the same as looking up the whole path |
| JsValues.GetBelowLeaf | backend/controllers/reportController.js:85 | every path that continues below a non-element yields `undefined` |
| JsValues.FilterTruthy | backend/controllers/reportController.js:114-118 | `filter(Boolean)` keeps every truthy value and only truthy values, all taken from the input; it is empty exactly when no input is truthy |
| JsValues.FilterTruthyAppend | backend/controllers/reportController.js:114-118 | filtering keeps the order of the values: filtering a concatenation concatenates the filtered parts |
| JsValues.Strings | backend/controllers/reportController.js:118 | the parts `join` prints are `String(v)` of each value, one for one |
| JsValues.ToJsString | backend/controllers/reportController.js:80-81 | `String(v)` keeps text as it is; a truthy value that xml2js can produce prints as non-empty text |
| JsValues.Join | backend/controllers/reportController.js:118 | `join` starts with the first part, followed by the separator when there is a second part; no parts give "" |
| JsValues.JoinAppend | backend/controllers/reportController.js:118 | joining one more part at the end appends the separator and that part, so the join is every part in order with the separator between neighbours |
| JsValues.BlankRunEnd | backend/controllers/reportController.js:112 | the run of blanks starting at `k` ends at the first non-blank character or at the end of the text |
| JsValues.BlankRunStart | backend/controllers/reportController.js:112 | the run of blanks ending at `k` starts just after a non-blank character or at the lower bound |
| JsValues.TrimStart | backend/controllers/reportController.js:112 | `trimStart` drops exactly the leading blanks: the result is a suffix that does not start with a blank |
| JsValues.Trim | backend/controllers/reportController.js:112 | `trim` gives the slice of the text that starts where the leading blanks end and is followed only by blanks, with no blank at either end |
| JsValues.TrimEmptyIff | backend/controllers/reportController.js:112 | `s.trim()` is empty exactly when every character of `s` is blank |
| JsValues.JoinEmptyIff | backend/controllers/reportController.js:118 | the join of non-empty parts is empty exactly when there are no parts |
| JsNumbers.DigitValue | backend/controllers/reportController.js:88 | a decimal digit denotes a value below 10 |
| JsNumbers.HexDigitValue | backend/controllers/reportController.js:88 | a hexadecimal digit denotes a value below 16 |
| JsNumbers.DigitRun | backend/controllers/reportController.js:88 | `parseInt` reads the longest run of leading decimal digits |
| JsNumbers.HexRun | backend/controllers/reportController.js:88 | after `0x`, `parseInt` reads the longest run of hexadecimal digits |
| JsNumbers.Unsigned | backend/controllers/reportController.js:88 | a leading `+` or `-` is taken off before the digits are read, and nothing else is |
| JsNumbers.UnsignedIntPrefix | backend/controllers/reportController.js:88 | the unsigned integer reader finds a number only in text that starts with a digit |
| JsNumbers.UnsignedFloatPrefix | backend/controllers/reportController.js:105-107 | the unsigned decimal reader finds a number only in text that starts with a digit or "." |
| JsNumbers.ParseInt | backend/controllers/reportController.js:88 | `parseInt` gives a number only when a digit follows the blanks and the sign; the number is negative only after a minus |
| JsNumbers.ParseFloat | backend/controllers/reportController.js:105-107 | `parseFloat` gives a number only when a digit or "." follows the blanks and the sign; the number is negative only after a minus |
| JsNumbers.IntOr0 | backend/controllers/reportController.js:88 | `parseInt(v) \|\| 0` is the number `parseInt` reads from the text, and 0 when the text is NaN |
| JsNumbers.FloatOr0 | backend/controllers/reportController.js:124-125 | `parseFloat(v) \|\| 0` is the number `parseFloat` reads from the text, and 0 when the text is NaN |
| JsNumbers.NumberAtIsNumberOfGet | backend/controllers/reportController.js:88 | `parseInt(v?.a?.b) \|\| 0` and `parseFloat(...) \|\| 0` (IntAt, FloatAt) read the value at the end of the path and convert it |
| JsNumbers.DigitChar | backend/routes/index.js:13 | the printed digit denotes the value it prints |
| JsNumbers.NatToDecimal | backend/routes/index.js:13 | `String(n)` of a non-negative integer is a non-empty digit string with no leading zero, and it denotes `n` |
| JsNumbers.DigitRunOfDigits | backend/controllers/reportController.js:88 | the digit run stops at the first character that is not a digit |
| JsNumbers.KeepsNonBlank | backend/controllers/reportController.js:88 | text that does not start with a blank is not trimmed |
| JsNumbers.NoBlankNoSign | backend/controllers/reportController.js:88 | text that starts with a digit is neither trimmed nor unsigned |
| JsNumbers.UnsignedIntOfDigits | backend/controllers/reportController.js:88 | the unsigned reader gives the value of the leading digits, whatever follows them |
| JsNumbers.ParseIntOfDigits | backend/controllers/reportController.js:88 | `parseInt` of digits followed by a non-digit is the value of the digits ("720abc" gives 720) |
| JsNumbers.ParseIntOfNegativeDigits | backend/controllers/reportController.js:88 | with a leading minus, `parseInt` gives the negated value |
| JsNumbers.ParseIntNoDigit | backend/controllers/reportController.js:88 | no digit after the blanks and the sign means NaN, so `\|\| 0` gives 0 |
| JsNumbers.IntOr0OfDecimal | backend/controllers/reportController.js:102-104 | `parseInt(v) \|\| 0` gives back a non-negative integer from its decimal text |
| JsNumbers.AbsentIsZero | backend/controllers/reportController.js:102-108 | an absent field reads as 0 through both `parseInt` and `parseFloat` |
| JsNumbers.UnsignedFloatOfDigits | backend/controllers/reportController.js:105-107 | the decimal reader gives a digit string's integer value |
| JsNumbers.ParseFloatOfDigits | backend/controllers/reportController.js:105-107 | `parseFloat` of a digit string is its integer value |
| JsNumbers.UnsignedFloatOfDecimal | backend/controllers/reportController.js:124-125 | the decimal reader reads "digits.digits" as the integer part plus the fraction |
| JsNumbers.ParseFloatOfDecimal | backend/controllers/reportController.js:124-125 | `parseFloat("12.50")` is 12.5: the integer part plus the fraction |
| JsNumbers.ParseFloatOfExponent | backend/controllers/reportController.js:124-125 | an exponent scales the mantissa by a power of ten: `parseFloat("1.5e2")` is 150 |
| JsNumbers.IntAndFloatAgreeOnDecimal | backend/controllers/reportController.js:102-107 | counts read with `parseInt` and balances read with `parseFloat` agree on integer text |
| CreditReportModel.OptionalString | backend/models/CreditReport.js:23-28 | an optional String path accepts absent values, text, and elements with a string `_id`; absent stays absent, text is kept, an element gives its `_id` |
| CreditReportModel.RequiredString | backend/models/CreditReport.js:4-6 | a required String path accepts exactly the values that cast to a non-empty string, and stores that cast |
| CreditReportModel.RequiredNumber | backend/models/CreditReport.js:7 | a required Number path fails exactly when the number is missing |
| CreditReportModel.CastAccount | backend/models/CreditReport.js:20-32 | an account saves exactly when all its paths cast; each saved string is the cast of its input, the balance is the input's, and `amountOverdue` defaults to 0 |
| CreditReportModel.CastAccounts | backend/models/CreditReport.js:37 | the account array saves exactly when every account does, one for one and in order |
| CreditReportModel.CastSummary | backend/models/CreditReport.js:10-18 | the summary saves exactly when all seven numbers are present, and it stores those seven numbers |
| CreditReportModel.CastReport | backend/models/CreditReport.js:34-42 | a report saves exactly when every path casts and every required path is set; the saved document is valid, stores the cast of each input field and the cast accounts in order, and has `uploadedAt` equal to the clock reading |
| CreditReportModel.MissingRequiredStringRejected | backend/models/CreditReport.js:6 | an absent or empty PAN makes `save()` fail |
| CreditReportModel.Lookup | backend/controllers/reportController.js:60 | lookup returns a stored document with the requested identifier, or reports that none has it |
| CreditReportModel.LookupFindsTheDocument | backend/controllers/reportController.js:60 | with increasing identifiers, lookup finds the one document that carries the identifier |
| CreditReportModel.Collection.constructor | backend/models/CreditReport.js:49 | a new collection is empty and valid |
| CreditReportModel.Collection.Create | backend/controllers/reportController.js:27-28 | `save()` appends the validated document under a fresh identifier exactly when the input casts; a rejected input writes nothing |
| CreditReportModel.Collection.FindById | backend/controllers/reportController.js:60 | `findById` finds a document exactly when one carries the identifier, and the one it returns carries it |
| Validation.MatchIffEndsWithXml | backend/middleware/validation.js:9 | `/\.(xml)$/` matches exactly the names that end with ".xml", case-sensitively |
| Validation.CheckFile | backend/middleware/validation.js:5-13 | the check passes exactly when a file is present and its name ends with ".xml"; otherwise the message is "No file uploaded" or "Only XML files are allowed" |
| Validation.ValidateUpload | backend/middleware/validation.js:14-20 | the middleware calls `next()` exactly when the check passes; otherwise it answers 400 with one error |
| Validation.NoFileReportsOnlyMissingFile | backend/middleware/validation.js:6-8 | without a file the only error is "No file uploaded" |
| Validation.ExtensionExamples | backend/middleware/validation.js:9 | "a.xml" passes; "A.XML" and "a.xml.bak" are refused |
| CreditExtractor.Name | backend/controllers/reportController.js:80-81 | the name is the first name, a space, then the last name; without an applicant it is "undefined undefined" |
| CreditExtractor.FilterJoinIsPresentLines | backend/controllers/reportController.js:114-118 | filtering, printing and joining the lines gives the text of each present line, in order, separated by ", " |
| CreditExtractor.PresentLinesSkipsFalsy | backend/controllers/reportController.js:114-118 | an absent or empty line takes no part in the street, whichever falsy value stands there |
| CreditExtractor.Bank | backend/controllers/reportController.js:112 | `Subscriber_Name?.trim() \|\| 'Unknown'` succeeds exactly when the name is absent or text, and then gives a non-empty text |
| CreditExtractor.AddressOf | backend/controllers/reportController.js:113-122 | the street is the joined lines; city, state and pincode are their source values, or "Unknown" when those are absent or empty |
| CreditExtractor.ExtractAccount | backend/controllers/reportController.js:110-126 | the callback throws a TypeError exactly on an absent element or a bank name that is not text; the bank is the trimmed name or "Unknown"; card number and account number are both the account number; the two amounts are `parseFloat(...) \|\| 0` |
| CreditExtractor.ExtractAccounts | backend/controllers/reportController.js:110-126 | `details?.map(...) \|\| []` succeeds exactly when the node is absent or an array of extractable elements; absent gives no accounts |
| CreditExtractor.HolderPan | backend/controllers/reportController.js:85-98 | the PAN is the first account element's `Income_TAX_PAN`, or "Unknown" when it is missing or empty or the list is absent, empty or text; it casts to a non-empty string exactly when the value read casts to a string |
| CreditExtractor.BasicDetailsOf | backend/controllers/reportController.js:80-100 | the name is the joined text and never empty; the phone is the source value or "Unknown" when that is absent or empty; the PAN comes from the first account element, or is "Unknown" when the account list is absent, empty or text; the score is `parseInt(BureauScore) \|\| 0` |
| CreditExtractor.SummaryOf | backend/controllers/reportController.js:91-109 | all seven summary numbers are present; the seven-day enquiry count is read from `TotalCAPS_Summary`, not from the account summary |
| CreditExtractor.ExtractCreditData | backend/controllers/reportController.js:72-129 | extraction succeeds exactly when the root is present and the account node is absent or a mappable array; a falsy root throws the missing-element error; a successful result is assembled from the parts above, with `xmlFileName` falling back to "Unknown" |
| CreditExtractor.SingleAccountThrows | backend/controllers/reportController.js:110 | a single account element (an object) makes extraction throw "map is not a function" |
| CreditExtractor.AccountsFollowDocument | backend/controllers/reportController.js:110-126 | the accounts are the account elements, one for one and in order; each card number equals its account number and is never empty |
| CreditExtractor.NoAccountSectionNoAccounts | backend/controllers/reportController.js:85-126 | without `CAIS_Account` there are no accounts and the PAN is "Unknown" |
| CreditExtractor.CountsReadCreditAccount | backend/controllers/reportController.js:91-104 | the three counts are `parseInt(...) \|\| 0` of the `Credit_Account` fields |
| CreditExtractor.BalancesReadOutstanding | backend/controllers/reportController.js:92-107 | the three balances are `parseFloat(...) \|\| 0` of the `Total_Outstanding_Balance` fields |
| CreditExtractor.NoAccountSectionZeroSummary | backend/controllers/reportController.js:91-107 | without `CAIS_Account` every summary count and balance is 0 |
| CreditExtractor.SectionFallbackIsTransparent | backend/controllers/reportController.js:91-92 | the `\|\| {}` fallback of a summary section changes no field that is read |
| CreditExtractor.BlankBankIsUnknown | backend/controllers/reportController.js:112 | a blank-only bank name becomes "Unknown"; any other name is kept, trimmed |
| CreditExtractor.StreetEmptyIff | backend/controllers/reportController.js:114-118 | the street is "" (never "Unknown") exactly when no address line is present and non-empty, for every shape xml2js produces |
| CreditExtractor.StreetEmptyWithOneItemArray | backend/controllers/reportController.js:114-118 | outside the xml2js shapes the equivalence fails: a line holding the one-item array `[""]` is truthy yet the street is "" |
| CreditExtractor.StreetSkipsEmptyLine | backend/controllers/reportController.js:114-118 | an empty or missing line is skipped: the street is what it would be without that line |
| CreditExtractor.StreetJoinsLines | backend/controllers/reportController.js:114-118 | the street is the text of each present line, in order, separated by ", " |
| CreditExtractor.ThreePresentLines | backend/controllers/reportController.js:114-118 | three present lines give "first, second, third" |
| CreditExtractor.FallbackCastable | backend/controllers/reportController.js:97-127 | a value with the "Unknown" fallback casts to a non-empty string exactly when the value itself is acceptable to a String path |
| CreditExtractor.ExtractedAccountCastable | backend/controllers/reportController.js:110-126 | an extracted account saves exactly when its account number, city, state and pincode are acceptable to String paths |
| CreditExtractor.ExtractedAccountsSave | backend/controllers/reportController.js:110-126 | all extracted accounts save exactly when the text leaves of every account element are acceptable |
| CreditExtractor.ExtractedReportSaves | backend/controllers/reportController.js:24-28 | whatever the extractor accepts, `save()` accepts exactly when the pass-through text leaves are acceptable; every required string it builds is non-empty and every number is present |
| ReportController.ProcessDocument | backend/controllers/reportController.js:13-28 | processing succeeds exactly when the file parses, the extractor accepts the document and the result casts; the document then saved is the cast result |
| ReportController.ProcessedIff | backend/controllers/reportController.js:24-28 | a parsed document is saved exactly when the extractor accepts it and its text leaves are acceptable; the saved document is valid and stamped with the upload time |
| ReportController.MissingRootFails | backend/controllers/reportController.js:73-77 | a document without `INProfileResponse` is not saved |
| ReportController.SingleAccountFails | backend/controllers/reportController.js:110 | a document with a single account element is not saved |
| ReportController.UploadXML | backend/controllers/reportController.js:7-41 | without a file: 400 "No file uploaded". Otherwise, on success the report is appended under a fresh identifier, the staged file is removed, and the answer is 201 with that identifier. Any failure answers 500 "Error processing XML file" and changes nothing |
| ReportController.SaveAndRemove | backend/controllers/reportController.js:27-36 | a castable input is saved, its staged file removed and 201 answered; otherwise 500 and nothing changes |
| ReportController.InsertNewest | backend/controllers/reportController.js:48 | inserting into a newest-first list keeps it newest-first and adds exactly the one report |
| ReportController.PrependNewest | backend/controllers/reportController.js:48 | a report no older than the head of a newest-first list can go in front of it |
| ReportController.SortNewest | backend/controllers/reportController.js:48 | sorting by `uploadedAt` descending gives a newest-first permutation of the collection |
| ReportController.TopOfNewestFirst | backend/controllers/reportController.js:48-49 | the first ten of a newest-first list are the ten newest |
| ReportController.RestNoNewer | backend/controllers/reportController.js:48-49 | nothing past the cut is newer than anything before it |
| ReportController.Latest | backend/controllers/reportController.js:46-49 | the query returns min(10, n) reports, newest first, all from the collection, and none left out is newer than one returned |
| ReportController.GetReports | backend/controllers/reportController.js:44-55 | `getReports` answers 200 with the ten newest reports, each a valid document |
| ReportController.SmallCollectionListedWhole | backend/controllers/reportController.js:49 | with ten reports or fewer, the list holds every report |
| ReportController.GetReportById | backend/controllers/reportController.js:58-69 | 200 with the stored, valid report exactly when one carries the identifier; otherwise 404 "Report not found"; a malformed identifier answers 500 "Error fetching report" |
| Routes.StoredFileName | backend/routes/index.js:12-14 | the stored name is digits, "-", then the client's name, so it ends with the client's name |
| Routes.StoredFileNameKeepsTime | backend/routes/index.js:13 | `parseInt` of the stored name gives back the upload time |
| Routes.Staged | backend/routes/index.js:8-15 | the staged file keeps the client's name, type, size and content, and lies in `uploads/` under the stored name |
| Routes.Receive | backend/routes/index.js:17-29 | multer passes a file exactly when it comes in field "file", the filter admits it (XML MIME type or ".xml" name), and it is at most 5 MiB; a body without a file passes with no file |
| Routes.MimetypeOnlyFileRefused | backend/routes/index.js:20 | a file admitted only for its MIME type is staged, then refused by `validateUpload` |
| Routes.XmlNamedFilePassesValidation | backend/routes/index.js:20-32 | every admitted file named ".xml" passes `validateUpload` |
| Routes.NoFileAnsweredByValidation | backend/routes/index.js:32 | without a file the answer is 400 with one error, "No file uploaded", under `errors`, from the middleware; the controller's `{ error }` is never reached |
| Routes.Admit | backend/routes/index.js:32 | multer errors answer 500 and stage nothing; a file multer stores stays staged; only a ".xml" name reaches the controller |
| Routes.Upload | backend/routes/index.js:32 | the whole POST /upload chain: multer errors give 500, validation failures 400 (the staged file stays), then the controller's 201 or 500 |
| Routes.Handle | backend/routes/index.js:32-34 | each request goes to its route's chain with that chain's outcomes: the upload's 500/400/201/500 and its effects, the ten newest reports, or the report with 200, 404 or 500; listing and lookup change nothing |
| ReportDetail.BandOf | frontend/src/components/ReportDetail.js:29-44 | the bands are ≥750, 700-749, 650-699, 600-649 and below 600, with each threshold inclusive |
| ReportDetail.Rating | frontend/src/components/ReportDetail.js:39-43 | each band's text opens with a word whose first letter names the band |
| ReportDetail.BandText | frontend/src/components/ReportDetail.js:39-43 | each band's text opens with the band's rating word followed by " credit score. " |
| ReportDetail.ScoreColor | frontend/src/components/ReportDetail.js:29-35 | the colour is #4caf50 exactly from 750 and #f44336 exactly below 600; #8bc34a from 700, #ffc107 from 650 and #ff9800 from 600 |
| ReportDetail.ScoreText | frontend/src/components/ReportDetail.js:38-44 | the text opens with the score band's rating word and " credit score. "; it is the Excellent one exactly from 750 and the Poor one exactly below 600 |
| ReportDetail.BandsMonotone | frontend/src/components/ReportDetail.js:29-44 | a higher score never gets a lower band |
| ReportDetail.ColorAndTextAgree | frontend/src/components/ReportDetail.js:30-42 | two scores share a colour exactly when they share a text, which is exactly when they share a band |
| ReportDetail.BandColorsDistinct | frontend/src/components/ReportDetail.js:30-34 | the five colours are pairwise different |
| ReportDetail.BandTextsDistinct | frontend/src/components/ReportDetail.js:39-43 | the five texts are pairwise different |
| ReportDetail.InitialsDistinct | frontend/src/components/ReportDetail.js:39-43 | the five initial letters are pairwise different |
| ReportDetail.BoundaryScores | frontend/src/components/ReportDetail.js:30-33 | 750 is Excellent and 749 Very good; 600 is Fair and 599 Poor; the default score 0 is red |
| ReportDetail.OverdueColor | frontend/src/components/ReportDetail.js:413 | the overdue amount is #d32f2f exactly when positive and #2e7d32 otherwise |
| Wrappers.MapResult | backend/controllers/reportController.js:110 | `map` with a callback that may throw succeeds exactly when every call succeeds, one result per element in order; otherwise it throws the first element's error |

## Left out

- Number precision: numbers are exact integers and rationals. Double rounding, `Infinity`,
  `parseFloat`'s "Infinity" literal and `-0` are not modelled.
- XML parsing by xml2js: the parsed tree is given. Only its shape is kept: a single element is not
  wrapped in an array, and text is trimmed. Parse failures are `None`.
- File I/O: `fs.readFile` and `fs.unlink` become membership in the `uploads/` set. Storage failures
  (a full disk, a failed unlink after a save) are not modelled.
- MongoDB: the collection is in memory. ObjectIds are increasing natural numbers. The route
  parameter arrives already cast: `None` when it is malformed. The `createdAt`/`updatedAt`
  timestamps, sub-document `_id`s, indexes and the `__v` key removed by `select('-__v')` are not
  modelled. Database errors (the 500 "Error fetching reports") are not modelled.
- ReportController.Latest: ties on `uploadedAt` are put in insertion order. MongoDB leaves their
  order unspecified.
- The string cast does not model objects with a custom `toString`, numbers, or booleans. The tree
  holds no such values.
- Property names that Object.prototype defines (such as `constructor`) are treated as absent
  elements.
- Express routing: path matching, the `/api` prefix, unknown routes, the body of Express's default
  error page, and multer errors other than a wrong field name, a rejected type and the size limit
  (a second file, for example). The error handler in `backend/server.js` is registered before the
  routes, so it never sees their errors.
- `Http.FieldErrors`: each express-validator error object is kept as its `msg` only. Its other keys
  (the field name, the location, the value, and the error type) are not modelled; they depend on the
  library version.
- Routes.Upload: one clock reading serves both the stored file name and `uploadedAt`. The source
  calls `Date.now()` twice, so the two can differ by a few milliseconds.
- CreditExtractor.StreetEmptyIff: holds for the values xml2js produces. An array with a single
  item that prints as "" cannot come from xml2js; for such an array the street can be "" while the
  line is truthy.
- Logging, process setup and configuration defaults.
- The React components: rendering, hooks, `formatCurrency` and date formatting.

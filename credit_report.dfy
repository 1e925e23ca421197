/**
 * The CreditReport schema and its collection: the documents as stored, the plain object handed to
 * `new CreditReport(...)`, the cast-and-validate step `save()` performs (string casting and the
 * `required` flags), and the collection itself as an object holding the saved documents.
 */
module CreditReportModel {
  import opened Wrappers
  import opened JsValues

  // ----- Stored documents -----

  datatype BasicDetails = BasicDetails(name: string, mobilePhone: string, pan: string, creditScore: real)

  datatype ReportSummary = ReportSummary(
    totalAccounts: real,
    activeAccounts: real,
    closedAccounts: real,
    currentBalanceAmount: real,
    securedAccountsAmount: real,
    unsecuredAccountsAmount: real,
    lastSevenDaysCreditEnquiries: real)

  /** The four address strings are optional. */
  datatype Address = Address(street: Option<string>, city: Option<string>, state: Option<string>, pincode: Option<string>)

  datatype CreditAccount = CreditAccount(
    creditCardNumber: string,
    bank: string,
    address: Address,
    accountNumber: string,
    amountOverdue: real,
    currentBalance: real)

  datatype CreditReport = CreditReport(
    basicDetails: BasicDetails,
    reportSummary: ReportSummary,
    creditAccounts: seq<CreditAccount>,
    uploadedAt: int,
    xmlFileName: string)

  /** A saved document with the identifier the collection gave it. */
  datatype StoredReport = StoredReport(id: nat, report: CreditReport)

  /** What the `required: true` flags demand of a stored document: a required String path holds a
      non-empty string (numbers and subdocuments are present by construction). */
  predicate ValidAccount(a: CreditAccount)
  {
    a.creditCardNumber != "" && a.bank != "" && a.accountNumber != ""
  }

  predicate ValidDocument(d: CreditReport)
  {
    && d.basicDetails.name != ""
    && d.basicDetails.mobilePhone != ""
    && d.basicDetails.pan != ""
    && d.xmlFileName != ""
    && forall i :: 0 <= i < |d.creditAccounts| ==> ValidAccount(d.creditAccounts[i])
  }

  // ----- The plain object given to the model constructor -----

  datatype BasicDetailsInput = BasicDetailsInput(name: JsVal, mobilePhone: JsVal, pan: JsVal, creditScore: Option<real>)

  datatype SummaryInput = SummaryInput(
    totalAccounts: Option<real>,
    activeAccounts: Option<real>,
    closedAccounts: Option<real>,
    currentBalanceAmount: Option<real>,
    securedAccountsAmount: Option<real>,
    unsecuredAccountsAmount: Option<real>,
    lastSevenDaysCreditEnquiries: Option<real>)

  datatype AddressInput = AddressInput(street: JsVal, city: JsVal, state: JsVal, pincode: JsVal)

  datatype AccountInput = AccountInput(
    creditCardNumber: JsVal,
    bank: JsVal,
    address: AddressInput,
    accountNumber: JsVal,
    amountOverdue: Option<real>,
    currentBalance: Option<real>)

  datatype ReportInput = ReportInput(
    basicDetails: Option<BasicDetailsInput>,
    reportSummary: Option<SummaryInput>,
    creditAccounts: seq<AccountInput>,
    xmlFileName: JsVal)

  /** Why `save()` rejects a document: a value a String path cannot take, or a required path left empty. */
  datatype SaveError = CastError(path: string) | RequiredError(path: string)

  // ----- Casting and validation -----

  /** A value a String path accepts: absent, a string, or an object whose `_id` is a non-empty string. */
  predicate StringLike(v: JsVal)
  {
    match v
    case Undef => true
    case Str(_) => true
    case Obj(m) => "_id" in m && m["_id"].Str? && m["_id"].s != ""
    case Arr(_) => false
  }

  /** A value a required String path accepts: one that casts to a non-empty string. */
  predicate NonEmptyStringLike(v: JsVal)
  {
    StringLike(v) && !v.Undef? && v != Str("")
  }

  /** Mongoose's string cast of an optional path: `undefined` stays absent, a string is kept, an object
      with a string `_id` gives that `_id`; any other object and every array is a CastError. */
  function OptionalString(v: JsVal, path: string): (r: Result<Option<string>, SaveError>)
    ensures r.Ok? <==> StringLike(v)
    ensures r.Ok? ==> (r.value.None? <==> v.Undef?)
    ensures v.Str? ==> r == Ok(Some(v.s))
    ensures v.Obj? && r.Ok? ==> r.value == Some(v.fields["_id"].s)
  {
    match v
    case Undef => Ok(None)
    case Str(s) => Ok(Some(s))
    case Obj(m) =>
      if "_id" in m && m["_id"].Str? && m["_id"].s != "" then Ok(Some(m["_id"].s)) else Err(CastError(path))
    case Arr(_) => Err(CastError(path))
  }

  /** A required String path: the cast must succeed and give a non-empty string. */
  function RequiredString(v: JsVal, path: string): (r: Result<string, SaveError>)
    ensures r.Ok? <==> NonEmptyStringLike(v)
    ensures r.Ok? ==> r.value != ""
    ensures r.Ok? ==> Some(r.value) == OptionalString(v, path).value
  {
    var s :- OptionalString(v, path);
    match s
    case None => Err(RequiredError(path))
    case Some(text) => if text == "" then Err(RequiredError(path)) else Ok(text)
  }

  /** A required Number path. */
  function RequiredNumber(x: Option<real>, path: string): (r: Result<real, SaveError>)
    ensures r.Ok? <==> x.Some?
  {
    match x
    case None => Err(RequiredError(path))
    case Some(n) => Ok(n)
  }

  /** The CreditAccount subdocument: three required strings, four optional address strings, a required
      currentBalance, and amountOverdue defaulting to 0. */
  function CastAccount(a: AccountInput): (r: Result<CreditAccount, SaveError>)
    ensures r.Ok? <==> AccountCastable(a)
    ensures r.Ok? ==> ValidAccount(r.value)
    ensures r.Ok? ==> r.value.amountOverdue == (if a.amountOverdue.Some? then a.amountOverdue.value else 0.0)
    ensures r.Ok? ==> && Some(r.value.creditCardNumber) == OptionalString(a.creditCardNumber, "creditCardNumber").value
                      && Some(r.value.bank) == OptionalString(a.bank, "bank").value
                      && Some(r.value.accountNumber) == OptionalString(a.accountNumber, "accountNumber").value
                      && r.value.currentBalance == a.currentBalance.value
    ensures r.Ok? ==> r.value.address == Address(OptionalString(a.address.street, "address.street").value,
                                                 OptionalString(a.address.city, "address.city").value,
                                                 OptionalString(a.address.state, "address.state").value,
                                                 OptionalString(a.address.pincode, "address.pincode").value)
  {
    var creditCardNumber :- RequiredString(a.creditCardNumber, "creditCardNumber");
    var bank :- RequiredString(a.bank, "bank");
    var street :- OptionalString(a.address.street, "address.street");
    var city :- OptionalString(a.address.city, "address.city");
    var state :- OptionalString(a.address.state, "address.state");
    var pincode :- OptionalString(a.address.pincode, "address.pincode");
    var accountNumber :- RequiredString(a.accountNumber, "accountNumber");
    var currentBalance :- RequiredNumber(a.currentBalance, "currentBalance");
    var amountOverdue := if a.amountOverdue.Some? then a.amountOverdue.value else 0.0;
    Ok(CreditAccount(creditCardNumber, bank, Address(street, city, state, pincode), accountNumber,
                     amountOverdue, currentBalance))
  }

  /** Every path of an account input is acceptable to its schema type. */
  predicate AccountCastable(a: AccountInput)
  {
    && NonEmptyStringLike(a.creditCardNumber)
    && NonEmptyStringLike(a.bank)
    && StringLike(a.address.street) && StringLike(a.address.city)
    && StringLike(a.address.state) && StringLike(a.address.pincode)
    && NonEmptyStringLike(a.accountNumber)
    && a.currentBalance.Some?
  }

  /** The `creditAccounts` array: every element is cast, in order, and the first failure rejects it. */
  function CastAccounts(accounts: seq<AccountInput>): (r: Result<seq<CreditAccount>, SaveError>)
    ensures r.Ok? <==> forall i :: 0 <= i < |accounts| ==> AccountCastable(accounts[i])
    ensures r.Ok? ==> |r.value| == |accounts|
    ensures r.Ok? ==> forall i :: 0 <= i < |accounts| ==> CastAccount(accounts[i]) == Ok(r.value[i])
    decreases |accounts|
  {
    if accounts == [] then Ok([])
    else
      var first :- CastAccount(accounts[0]);
      var rest :- CastAccounts(accounts[1..]);
      Ok([first] + rest)
  }

  /** Every path of the input is acceptable to the schema. */
  predicate ReportCastable(inp: ReportInput)
  {
    && inp.basicDetails.Some?
    && NonEmptyStringLike(inp.basicDetails.value.name)
    && NonEmptyStringLike(inp.basicDetails.value.mobilePhone)
    && NonEmptyStringLike(inp.basicDetails.value.pan)
    && inp.basicDetails.value.creditScore.Some?
    && inp.reportSummary.Some?
    && SummaryComplete(inp.reportSummary.value)
    && (forall i :: 0 <= i < |inp.creditAccounts| ==> AccountCastable(inp.creditAccounts[i]))
    && NonEmptyStringLike(inp.xmlFileName)
  }

  predicate SummaryComplete(s: SummaryInput)
  {
    && s.totalAccounts.Some? && s.activeAccounts.Some? && s.closedAccounts.Some?
    && s.currentBalanceAmount.Some? && s.securedAccountsAmount.Some? && s.unsecuredAccountsAmount.Some?
    && s.lastSevenDaysCreditEnquiries.Some?
  }

  function CastSummary(s: SummaryInput): (r: Result<ReportSummary, SaveError>)
    ensures r.Ok? <==> SummaryComplete(s)
    ensures r.Ok? ==> r.value == ReportSummary(
                        s.totalAccounts.value, s.activeAccounts.value, s.closedAccounts.value,
                        s.currentBalanceAmount.value, s.securedAccountsAmount.value,
                        s.unsecuredAccountsAmount.value, s.lastSevenDaysCreditEnquiries.value)
  {
    var totalAccounts :- RequiredNumber(s.totalAccounts, "reportSummary.totalAccounts");
    var activeAccounts :- RequiredNumber(s.activeAccounts, "reportSummary.activeAccounts");
    var closedAccounts :- RequiredNumber(s.closedAccounts, "reportSummary.closedAccounts");
    var currentBalanceAmount :- RequiredNumber(s.currentBalanceAmount, "reportSummary.currentBalanceAmount");
    var securedAccountsAmount :- RequiredNumber(s.securedAccountsAmount, "reportSummary.securedAccountsAmount");
    var unsecuredAccountsAmount :- RequiredNumber(s.unsecuredAccountsAmount, "reportSummary.unsecuredAccountsAmount");
    var lastSevenDays :- RequiredNumber(s.lastSevenDaysCreditEnquiries, "reportSummary.lastSevenDaysCreditEnquiries");
    Ok(ReportSummary(totalAccounts, activeAccounts, closedAccounts, currentBalanceAmount,
                     securedAccountsAmount, unsecuredAccountsAmount, lastSevenDays))
  }

  /** `new CreditReport(input)` followed by validation in `save()`: the document `save()` would write,
      with `uploadedAt` defaulted to the clock reading `now`, or the first path it rejects. */
  function CastReport(inp: ReportInput, now: int): (r: Result<CreditReport, SaveError>)
    ensures r.Ok? <==> ReportCastable(inp)
    ensures r.Ok? ==> ValidDocument(r.value)
    ensures r.Ok? ==> r.value.uploadedAt == now && |r.value.creditAccounts| == |inp.creditAccounts|
    ensures r.Ok? ==> var b := inp.basicDetails.value;
                      && Some(r.value.basicDetails.name) == OptionalString(b.name, "basicDetails.name").value
                      && Some(r.value.basicDetails.mobilePhone) == OptionalString(b.mobilePhone, "basicDetails.mobilePhone").value
                      && Some(r.value.basicDetails.pan) == OptionalString(b.pan, "basicDetails.pan").value
                      && r.value.basicDetails.creditScore == b.creditScore.value
                      && Some(r.value.xmlFileName) == OptionalString(inp.xmlFileName, "xmlFileName").value
    ensures r.Ok? ==> && r.value.reportSummary == CastSummary(inp.reportSummary.value).value
                      && r.value.creditAccounts == CastAccounts(inp.creditAccounts).value
  {
    if inp.basicDetails.None? then Err(RequiredError("basicDetails"))
    else
      var b := inp.basicDetails.value;
      var name :- RequiredString(b.name, "basicDetails.name");
      var mobilePhone :- RequiredString(b.mobilePhone, "basicDetails.mobilePhone");
      var pan :- RequiredString(b.pan, "basicDetails.pan");
      var creditScore :- RequiredNumber(b.creditScore, "basicDetails.creditScore");
      if inp.reportSummary.None? then Err(RequiredError("reportSummary"))
      else
        var summary :- CastSummary(inp.reportSummary.value);
        var accounts :- CastAccounts(inp.creditAccounts);
        var xmlFileName :- RequiredString(inp.xmlFileName, "xmlFileName");
        Ok(CreditReport(BasicDetails(name, mobilePhone, pan, creditScore), summary, accounts, now, xmlFileName))
  }

  /** Leaving a required string path out, or setting it to "", makes `save()` fail. */
  lemma MissingRequiredStringRejected(inp: ReportInput, now: int)
    requires inp.basicDetails.Some?
    requires inp.basicDetails.value.pan == Undef || inp.basicDetails.value.pan == Str("")
    ensures CastReport(inp, now).Err?
  {
  }

  // ----- Identifier lookup -----

  /** The saved document with identifier `id`, if any. */
  function Lookup(reports: seq<StoredReport>, id: nat): (r: Option<StoredReport>)
    ensures r.Some? ==> r.value in reports && r.value.id == id
    ensures r.None? ==> forall i :: 0 <= i < |reports| ==> reports[i].id != id
    decreases |reports|
  {
    if reports == [] then None
    else if reports[0].id == id then Some(reports[0])
    else Lookup(reports[1..], id)
  }

  /** Identifiers increase along the collection, so each names at most one document. */
  ghost predicate IdsIncreasing(reports: seq<StoredReport>)
  {
    forall i, j :: 0 <= i < j < |reports| ==> reports[i].id < reports[j].id
  }

  /** With increasing identifiers, Lookup finds the one document carrying the identifier. */
  lemma LookupFindsTheDocument(reports: seq<StoredReport>, k: nat)
    requires IdsIncreasing(reports)
    requires k < |reports|
    ensures Lookup(reports, reports[k].id) == Some(reports[k])
  {
    var r := Lookup(reports, reports[k].id);
    var j :| 0 <= j < |reports| && reports[j] == r.value;
    if j < k {
      assert reports[j].id < reports[k].id;
    } else if j > k {
      assert reports[k].id < reports[j].id;
    }
  }

  /**
   * The CreditReport collection: the documents saved so far, in the order they were saved, and the
   * next identifier to hand out (fresh identifiers stand for generated ObjectIds).
   */
  class Collection {
    var reports: seq<StoredReport>
    var nextId: nat

    /** Every saved document passed validation, and identifiers are increasing and below `nextId`. */
    ghost predicate Valid()
      reads this
    {
      && (forall i :: 0 <= i < |reports| ==> reports[i].id < nextId && ValidDocument(reports[i].report))
      && IdsIncreasing(reports)
    }

    constructor ()
      ensures Valid() && reports == [] && nextId == 0
    {
      reports := [];
      nextId := 0;
    }

    /** `new CreditReport(input)` then `save()`: on success the document is appended under a fresh
        identifier; on a validation failure nothing is written. */
    method Create(inp: ReportInput, now: int) returns (r: Result<StoredReport, SaveError>)
      requires Valid()
      modifies this
      ensures Valid()
      ensures r.Ok? <==> ReportCastable(inp)
      ensures r.Ok? ==> && r.value == StoredReport(old(nextId), CastReport(inp, now).value)
                        && reports == old(reports) + [r.value]
                        && (forall i :: 0 <= i < |old(reports)| ==> old(reports)[i].id != r.value.id)
      ensures r.Err? ==> reports == old(reports) && nextId == old(nextId)
    {
      var doc := CastReport(inp, now);
      if doc.Err? {
        return Err(doc.error);
      }
      var saved := StoredReport(nextId, doc.value);
      reports := reports + [saved];
      nextId := nextId + 1;
      r := Ok(saved);
    }

    /** `findById(id)`: the document saved under `id`, or nothing. */
    function FindById(id: nat): (r: Option<StoredReport>)
      reads this
      requires Valid()
      ensures r.Some? <==> exists i :: 0 <= i < |reports| && reports[i].id == id
      ensures r.Some? ==> r.value in reports && r.value.id == id
    {
      Lookup(reports, id)
    }
  }
}

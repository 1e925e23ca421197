/**
 * `extractCreditData`: from the tree xml2js makes of an Experian-style INProfileResponse document to the
 * plain object the CreditReport model is constructed from. Every read is an optional-chaining path,
 * every string falls back to "Unknown" through `||`, every number through `parseInt(...) || 0` or
 * `parseFloat(...) || 0`, and the account list is a `map` over the account node.
 */
module CreditExtractor {
  import opened Wrappers
  import opened JsValues
  import opened JsNumbers
  import opened CreditReportModel

  /** What `extractCreditData` throws: the explicit "Invalid XML format: Missing INProfileResponse
      element" error, or a TypeError the runtime raises. */
  datatype ExtractError = MissingRoot | TypeError(message: string)

  const Unknown: JsVal := Str("Unknown")

  const ApplicantPath: seq<string> := ["Current_Application", "Current_Application_Details", "Current_Applicant_Details"]
  const AccountDetailsPath: seq<string> := ["CAIS_Account", "CAIS_Account_DETAILS"]
  const SummaryPath: seq<string> := ["CAIS_Account", "CAIS_Summary", "Credit_Account"]
  const BalancesPath: seq<string> := ["CAIS_Account", "CAIS_Summary", "Total_Outstanding_Balance"]
  const HolderPanPath: seq<string> := ["CAIS_Holder_Details", "Income_TAX_PAN"]
  const ScorePath: seq<string> := ["SCORE", "BureauScore"]
  const RecentEnquiriesPath: seq<string> := ["TotalCAPS_Summary", "TotalCAPSLast7Days"]

  /** `First_Name + ' ' + Last_Name` of the current applicant, each part printed by String(): an absent
      part prints as "undefined". */
  function Name(report: JsVal): (name: string)
    ensures var first := ToJsString(Prop(Get(report, ApplicantPath), "First_Name"));
            |name| > |first| && name[..|first|] == first && name[|first|] == ' '
    ensures var first := ToJsString(Prop(Get(report, ApplicantPath), "First_Name"));
            name[|first| + 1..] == ToJsString(Prop(Get(report, ApplicantPath), "Last_Name"))
    ensures !Get(report, ApplicantPath).Obj? ==> name == "undefined undefined"
  {
    var applicant := Get(report, ApplicantPath);
    ToJsString(Prop(applicant, "First_Name")) + " " + ToJsString(Prop(applicant, "Last_Name"))
  }

  /** `[First_Line, Second_Line, Third_Line].filter(Boolean).join(', ')` of an address node. */
  function Street(address: JsVal): string
  {
    Join(", ", Strings(FilterTruthy(Lines(address))))
  }

  /** The three address lines of an address node, in order. */
  function Lines(address: JsVal): seq<JsVal>
  {
    [Prop(address, "First_Line_Of_Address_non_normalized"),
     Prop(address, "Second_Line_Of_Address_non_normalized"),
     Prop(address, "Third_Line_Of_Address_non_normalized")]
  }

  /** What the street is meant to be: the text of each present line, in order, each separated from the
      next by ", "; `None` when no line is present. */
  function PresentLines(values: seq<JsVal>): Option<string>
    decreases |values|
  {
    if values == [] then None
    else
      var rest := PresentLines(values[1..]);
      if !Truthy(values[0]) then rest
      else if rest.None? then Some(ToJsString(values[0]))
      else Some(ToJsString(values[0]) + ", " + rest.value)
  }

  /** `subscriberName?.trim() || 'Unknown'`: an element that is not text has no `trim` to call. */
  function Bank(subscriberName: JsVal): (r: Result<JsVal, ExtractError>)
    ensures r.Ok? <==> subscriberName.Undef? || subscriberName.Str?
    ensures r.Ok? ==> r.value.Str? && r.value.s != ""
  {
    match subscriberName
    case Undef => Ok(Unknown)
    case Str(s) => Ok(Or(Str(Trim(s)), Unknown))
    case _ => Err(TypeError("trim is not a function"))
  }

  /** An account node the callback below does not throw on: present, with a bank name that is absent or
      text. */
  predicate Extractable(account: JsVal)
  {
    !account.Undef? && (Prop(account, "Subscriber_Name").Undef? || Prop(account, "Subscriber_Name").Str?)
  }

  /** The `address` object of an account: the joined street and three fields falling back to "Unknown". */
  function AddressOf(address: JsVal): (r: AddressInput)
    ensures r.street == Str(Street(address))
    ensures var city := Prop(address, "City_non_normalized");
            r.city == (if Truthy(city) then city else Unknown)
    ensures var state := Prop(address, "State_non_normalized");
            r.state == (if Truthy(state) then state else Unknown)
    ensures var pincode := Prop(address, "ZIP_Postal_Code_non_normalized");
            r.pincode == (if Truthy(pincode) then pincode else Unknown)
    ensures StringLike(r.city) <==> StringLike(Prop(address, "City_non_normalized"))
    ensures StringLike(r.state) <==> StringLike(Prop(address, "State_non_normalized"))
    ensures StringLike(r.pincode) <==> StringLike(Prop(address, "ZIP_Postal_Code_non_normalized"))
  {
    FallbackCastable(Prop(address, "City_non_normalized"));
    FallbackCastable(Prop(address, "State_non_normalized"));
    FallbackCastable(Prop(address, "ZIP_Postal_Code_non_normalized"));
    AddressInput(
      street := Str(Street(address)),
      city := Or(Prop(address, "City_non_normalized"), Unknown),
      state := Or(Prop(address, "State_non_normalized"), Unknown),
      pincode := Or(Prop(address, "ZIP_Postal_Code_non_normalized"), Unknown))
  }

  /** The callback given to `map`: one account node to one credit account. `account.Account_Number` is a
      plain read, so an `undefined` element throws. */
  function ExtractAccount(account: JsVal): (r: Result<AccountInput, ExtractError>)
    ensures r.Ok? <==> Extractable(account)
    ensures r.Err? ==> r.error.TypeError?
    ensures r.Ok? ==> r.value.creditCardNumber == r.value.accountNumber
    ensures r.Ok? ==> NonEmptyStringLike(r.value.bank) && r.value.currentBalance.Some?
    ensures r.Ok? ==> r.value.accountNumber == Or(Prop(account, "Account_Number"), Unknown)
    ensures r.Ok? ==> r.value.address == AddressOf(Prop(account, "CAIS_Holder_Address_Details"))
    ensures r.Ok? ==> r.value.bank == Bank(Prop(account, "Subscriber_Name")).value
    ensures r.Ok? ==> && r.value.amountOverdue == Some(FloatOr0(Prop(account, "Amount_Past_Due")))
                      && r.value.currentBalance == Some(FloatOr0(Prop(account, "Current_Balance")))
  {
    assert ["Amount_Past_Due"][1..] == [] && ["Current_Balance"][1..] == [];
    if account.Undef? then Err(TypeError("Cannot read properties of undefined (reading 'Account_Number')"))
    else
      var bank :- Bank(Prop(account, "Subscriber_Name"));
      var accountNumber := Or(Prop(account, "Account_Number"), Unknown);
      Ok(AccountInput(
        creditCardNumber := accountNumber,
        bank := bank,
        address := AddressOf(Prop(account, "CAIS_Holder_Address_Details")),
        accountNumber := accountNumber,
        amountOverdue := Some(FloatAt(account, ["Amount_Past_Due"])),
        currentBalance := Some(FloatAt(account, ["Current_Balance"]))))
  }

  /** The account node `map` can run over without throwing: absent, or an array of extractable nodes. */
  predicate AccountsExtractable(details: JsVal)
  {
    details.Undef? || (details.Arr? && forall i :: 0 <= i < |details.items| ==> Extractable(details.items[i]))
  }

  /** `details?.map(callback) || []`: absent gives no accounts, an array is mapped, and anything else (a
      single account element, which xml2js leaves as an object, or a text node) has no `map` to call. */
  function ExtractAccounts(details: JsVal): (r: Result<seq<AccountInput>, ExtractError>)
    ensures r.Ok? <==> AccountsExtractable(details)
    ensures r.Err? ==> r.error.TypeError?
    ensures details.Undef? ==> r == Ok([])
  {
    match details
    case Undef => Ok([])
    case Arr(items) => MapResult(ExtractAccount, items)
    case _ => Err(TypeError("map is not a function"))
  }

  /** The `basicDetails` object: the name, the mobile number and the PAN of the first account's holder,
      each falling back to "Unknown", and `parseInt(BureauScore) || 0`. */
  function BasicDetailsOf(report: JsVal): (r: BasicDetailsInput)
    ensures r.name == Str(Name(report)) && NonEmptyStringLike(r.name)
    ensures NonEmptyStringLike(r.mobilePhone) <==> StringLike(Get(report, ApplicantPath + ["MobilePhoneNumber"]))
    ensures NonEmptyStringLike(r.pan) <==> StringLike(Get(ElementZero(Get(report, AccountDetailsPath)), HolderPanPath))
    ensures r.creditScore == Some(IntOr0(Get(report, ScorePath)) as real)
    ensures var phone := Get(report, ApplicantPath + ["MobilePhoneNumber"]);
            r.mobilePhone == (if Truthy(phone) then phone else Unknown)
    ensures var details := Get(report, AccountDetailsPath);
            && (details == Arr([]) || details.Undef? || details.Str? ==> r.pan == Unknown)
            && (details.Arr? && details.items != [] ==> r.pan == Or(Get(details.items[0], HolderPanPath), Unknown))
  {
    var phone := Get(report, ApplicantPath + ["MobilePhoneNumber"]);
    FallbackCastable(phone);
    var score := IntAt(report, ScorePath);
    assert score == IntOr0(Get(report, ScorePath)) by {
      NumberAtIsNumberOfGet(report, ScorePath);
    }
    BasicDetailsInput(
      name := Or(Str(Name(report)), Unknown),
      mobilePhone := Or(phone, Unknown),
      pan := HolderPan(Get(report, AccountDetailsPath)),
      creditScore := Some(score as real))
  }

  /** `details?.[0]?.CAIS_Holder_Details?.Income_TAX_PAN || 'Unknown'`: the PAN of the first account
      element, or "Unknown" when there is no such element or it has no PAN. */
  function HolderPan(details: JsVal): (pan: JsVal)
    ensures NonEmptyStringLike(pan) <==> StringLike(Get(ElementZero(details), HolderPanPath))
    ensures details == Arr([]) || details.Undef? || details.Str? ==> pan == Unknown
    ensures details.Arr? && details.items != [] ==> pan == Or(Get(details.items[0], HolderPanPath), Unknown)
  {
    var first := Get(ElementZero(details), HolderPanPath);
    assert Get(Undef, HolderPanPath) == Undef by {
      GetUndef(HolderPanPath);
    }
    FallbackCastable(first);
    Or(first, Unknown)
  }

  /** The `reportSummary` object: counts through `parseInt(...) || 0`, balances through
      `parseFloat(...) || 0`, read from the summary sections or from `{}` when those are missing. */
  function SummaryOf(report: JsVal): (r: SummaryInput)
    ensures SummaryComplete(r)
    ensures r.lastSevenDaysCreditEnquiries == Some(IntOr0(Get(report, RecentEnquiriesPath)) as real)
  {
    var week := IntAt(report, RecentEnquiriesPath);
    assert week == IntOr0(Get(report, RecentEnquiriesPath)) by {
      NumberAtIsNumberOfGet(report, RecentEnquiriesPath);
    }
    var summary := Or(Get(report, SummaryPath), Obj(map[]));
    var balances := Or(Get(report, BalancesPath), Obj(map[]));
    SummaryInput(
      totalAccounts := Some(IntAt(summary, ["CreditAccountTotal"]) as real),
      activeAccounts := Some(IntAt(summary, ["CreditAccountActive"]) as real),
      closedAccounts := Some(IntAt(summary, ["CreditAccountClosed"]) as real),
      currentBalanceAmount := Some(FloatAt(balances, ["Outstanding_Balance_All"])),
      securedAccountsAmount := Some(FloatAt(balances, ["Outstanding_Balance_Secured"])),
      unsecuredAccountsAmount := Some(FloatAt(balances, ["Outstanding_Balance_UnSecured"])),
      lastSevenDaysCreditEnquiries := Some(week as real))
  }

  /** `extractCreditData(xmlResult)`: the root element must be present; the accounts are mapped last, so a
      throwing account callback is what aborts an otherwise readable document. */
  function ExtractCreditData(xmlResult: JsVal): (r: Result<ReportInput, ExtractError>)
    ensures r.Ok? <==> && !xmlResult.Undef?
                       && Truthy(Prop(xmlResult, "INProfileResponse"))
                       && AccountsExtractable(Get(Prop(xmlResult, "INProfileResponse"), AccountDetailsPath))
    ensures !xmlResult.Undef? ==> (r == Err(MissingRoot) <==> !Truthy(Prop(xmlResult, "INProfileResponse")))
    ensures r.Ok? ==> var report := Prop(xmlResult, "INProfileResponse");
                      && r.value.basicDetails == Some(BasicDetailsOf(report))
                      && r.value.reportSummary == Some(SummaryOf(report))
                      && r.value.creditAccounts == ExtractAccounts(Get(report, AccountDetailsPath)).value
                      && r.value.xmlFileName == Or(Get(report, ["CreditProfileHeader", "ReportNumber"]), Unknown)
                      && (NonEmptyStringLike(r.value.xmlFileName) <==> StringLike(Get(report, ["CreditProfileHeader", "ReportNumber"])))
  {
    if xmlResult.Undef? then Err(TypeError("Cannot read properties of null (reading 'INProfileResponse')"))
    else
      var report := Prop(xmlResult, "INProfileResponse");
      if !Truthy(report) then Err(MissingRoot)
      else
        var accounts :- ExtractAccounts(Get(report, AccountDetailsPath));
        FallbackCastable(Get(report, ["CreditProfileHeader", "ReportNumber"]));
        Ok(ReportInput(
          basicDetails := Some(BasicDetailsOf(report)),
          reportSummary := Some(SummaryOf(report)),
          creditAccounts := accounts,
          xmlFileName := Or(Get(report, ["CreditProfileHeader", "ReportNumber"]), Unknown)))
  }

  // ----- When extraction throws -----

  /** A document whose CAIS_Account_DETAILS is one element (a single account, which xml2js does not wrap in
      an array) makes the extraction throw. */
  lemma SingleAccountThrows(xmlResult: JsVal, account: map<string, JsVal>)
    requires Truthy(Prop(xmlResult, "INProfileResponse"))
    requires Get(Prop(xmlResult, "INProfileResponse"), AccountDetailsPath) == Obj(account)
    ensures ExtractCreditData(xmlResult) == Err(TypeError("map is not a function"))
  {
  }

  // ----- What a successful extraction contains -----

  /** The accounts are the account elements, one for one and in document order; each repeats its account
      number as the card number, and neither is ever empty. */
  lemma AccountsFollowDocument(details: JsVal)
    requires ExtractAccounts(details).Ok?
    ensures var accounts := ExtractAccounts(details).value;
            && (details.Undef? ==> accounts == [])
            && (details.Arr? ==> && |accounts| == |details.items|
                                 && forall i :: 0 <= i < |accounts| ==> ExtractAccount(details.items[i]) == Ok(accounts[i]))
            && forall i :: 0 <= i < |accounts| ==>
                 && accounts[i].creditCardNumber == accounts[i].accountNumber
                 && Truthy(accounts[i].accountNumber)
  {
    if details.Arr? {
      var accounts := ExtractAccounts(details).value;
      forall i | 0 <= i < |accounts|
        ensures accounts[i].creditCardNumber == accounts[i].accountNumber && Truthy(accounts[i].accountNumber)
      {
        var account := accounts[i];
        assert ExtractAccount(details.items[i]) == Ok(account);
      }
    }
  }

  /** A report without a CAIS_Account element has no accounts and the PAN "Unknown". */
  lemma NoAccountSectionNoAccounts(report: JsVal)
    requires Prop(report, "CAIS_Account") == Undef
    ensures ExtractAccounts(Get(report, AccountDetailsPath)) == Ok([])
    ensures BasicDetailsOf(report).pan == Unknown
  {
    GetUndef(AccountDetailsPath[1..]);
    GetUndef(HolderPanPath);
    assert Get(report, AccountDetailsPath) == Undef;
  }

  /** The counts are `parseInt(...) || 0` of the Credit_Account fields, read as if the `|| {}` fallback
      were not there. */
  lemma CountsReadCreditAccount(report: JsVal)
    ensures SummaryOf(report).totalAccounts == Some(IntOr0(Get(report, SummaryPath + ["CreditAccountTotal"])) as real)
    ensures SummaryOf(report).activeAccounts == Some(IntOr0(Get(report, SummaryPath + ["CreditAccountActive"])) as real)
    ensures SummaryOf(report).closedAccounts == Some(IntOr0(Get(report, SummaryPath + ["CreditAccountClosed"])) as real)
  {
    SectionFallbackIsTransparent(report, SummaryPath, "CreditAccountTotal");
    SectionFallbackIsTransparent(report, SummaryPath, "CreditAccountActive");
    SectionFallbackIsTransparent(report, SummaryPath, "CreditAccountClosed");
  }

  /** The balances are `parseFloat(...) || 0` of the Total_Outstanding_Balance fields, read as if the
      `|| {}` fallback were not there. */
  lemma BalancesReadOutstanding(report: JsVal)
    ensures SummaryOf(report).currentBalanceAmount == Some(FloatOr0(Get(report, BalancesPath + ["Outstanding_Balance_All"])))
    ensures SummaryOf(report).securedAccountsAmount == Some(FloatOr0(Get(report, BalancesPath + ["Outstanding_Balance_Secured"])))
    ensures SummaryOf(report).unsecuredAccountsAmount == Some(FloatOr0(Get(report, BalancesPath + ["Outstanding_Balance_UnSecured"])))
  {
    SectionFallbackIsTransparent(report, BalancesPath, "Outstanding_Balance_All");
    SectionFallbackIsTransparent(report, BalancesPath, "Outstanding_Balance_Secured");
    SectionFallbackIsTransparent(report, BalancesPath, "Outstanding_Balance_UnSecured");
  }

  /** A report without a CAIS_Account element reads every summary count and balance as absent, so each
      becomes 0. */
  lemma NoAccountSectionZeroSummary(report: JsVal, key: string)
    requires Prop(report, "CAIS_Account") == Undef
    ensures IntOr0(Get(report, SummaryPath + [key])) == 0
    ensures FloatOr0(Get(report, BalancesPath + [key])) == 0.0
  {
    GetUndef((SummaryPath + [key])[1..]);
    GetUndef((BalancesPath + [key])[1..]);
    AbsentIsZero();
  }

  /** The `|| {}` fallback of a summary section changes nothing: reading a field through it gives what the
      plain optional path would give. */
  lemma SectionFallbackIsTransparent(report: JsVal, section: seq<string>, key: string)
    ensures Prop(Or(Get(report, section), Obj(map[])), key) == Get(report, section + [key])
  {
    GetAppend(report, section, [key]);
    if !Truthy(Get(report, section)) {
      GetUndef([key]);
    }
  }

  // ----- Accounts -----

  /** A bank name of blanks only falls back to "Unknown"; any other text is kept, trimmed. */
  lemma BlankBankIsUnknown(s: string)
    ensures (forall i :: 0 <= i < |s| ==> IsJsSpace(s[i])) ==> Bank(Str(s)) == Ok(Unknown)
    ensures (exists i :: 0 <= i < |s| && !IsJsSpace(s[i])) ==> Bank(Str(s)) == Ok(Str(Trim(s)))
  {
    TrimEmptyIff(s);
  }

  /** Filtering, printing and joining the lines gives what PresentLines describes. */
  lemma {:induction false} FilterJoinIsPresentLines(values: seq<JsVal>)
    ensures PresentLines(values).None? <==> FilterTruthy(values) == []
    ensures Join(", ", Strings(FilterTruthy(values))) ==
              (if PresentLines(values).None? then "" else PresentLines(values).value)
    decreases |values|
  {
    if values != [] {
      FilterJoinIsPresentLines(values[1..]);
      var kept := FilterTruthy(values[1..]);
      if Truthy(values[0]) {
        var parts := Strings([values[0]] + kept);
        assert parts == [ToJsString(values[0])] + Strings(kept);
        assert parts[1..] == Strings(kept);
      }
    }
  }

  /** A line that is absent or empty takes no part in PresentLines, whatever falsy value stands there. */
  lemma {:induction false} PresentLinesSkipsFalsy(values: seq<JsVal>, i: nat, w: JsVal)
    requires i < |values| && !Truthy(values[i]) && !Truthy(w)
    ensures PresentLines(values[i := w]) == PresentLines(values)
    decreases |values|
  {
    if i > 0 {
      assert values[i := w][1..] == values[1..][i - 1 := w];
      PresentLinesSkipsFalsy(values[1..], i - 1, w);
    } else {
      assert values[i := w][1..] == values[1..];
    }
  }

  /** The street is empty exactly when none of the three address lines is present and non-empty. */
  lemma {:induction false} StreetEmptyIff(address: JsVal)
    requires forall i :: 0 <= i < 3 ==> XmlShaped(Lines(address)[i])
    ensures Street(address) == "" <==> forall i :: 0 <= i < 3 ==> !Truthy(Lines(address)[i])
  {
    var lines := Lines(address);
    var kept := FilterTruthy(lines);
    forall i | 0 <= i < |kept|
      ensures Strings(kept)[i] != ""
    {
      assert kept[i] in lines;
    }
    JoinEmptyIff(", ", Strings(kept));
    if kept != [] {
      assert kept[0] in lines;
    }
  }

  /** Why StreetEmptyIff asks for the xml2js shapes: a one-item array holding "" is truthy, yet it
      prints as "", so the street comes out empty with a line present. */
  lemma StreetEmptyWithOneItemArray()
    ensures var address := Obj(map["First_Line_Of_Address_non_normalized" := Arr([Str("")])]);
            Truthy(Lines(address)[0]) && Street(address) == ""
  {
    var line := Arr([Str("")]);
    var address := Obj(map["First_Line_Of_Address_non_normalized" := line]);
    assert Lines(address) == [line, Undef, Undef];
    assert FilterTruthy(Lines(address)) == [line];
    assert ToJsString(line) == "";
  }

  /** A missing or empty line is skipped: the street is what it would be without that element. */
  lemma StreetSkipsEmptyLine(fields: map<string, JsVal>, key: string)
    requires key == "First_Line_Of_Address_non_normalized" || key == "Second_Line_Of_Address_non_normalized"
             || key == "Third_Line_Of_Address_non_normalized"
    requires !Truthy(Prop(Obj(fields), key))
    ensures Street(Obj(fields)) == Street(Obj(fields - {key}))
  {
    var lines := Lines(Obj(fields));
    var i := if key == "First_Line_Of_Address_non_normalized" then 0
             else if key == "Second_Line_Of_Address_non_normalized" then 1 else 2;
    assert Lines(Obj(fields - {key})) == lines[i := Undef];
    PresentLinesSkipsFalsy(lines, i, Undef);
    FilterJoinIsPresentLines(lines);
    FilterJoinIsPresentLines(lines[i := Undef]);
  }

  /** The street is the text of each present line, in order, separated by ", ". */
  lemma StreetJoinsLines(address: JsVal)
    ensures Street(address) == (if PresentLines(Lines(address)).None? then "" else PresentLines(Lines(address)).value)
    ensures var lines := Lines(address);
            Truthy(lines[0]) && Truthy(lines[1]) && Truthy(lines[2]) ==>
              Street(address) == ToJsString(lines[0]) + ", " + ToJsString(lines[1]) + ", " + ToJsString(lines[2])
  {
    var lines := Lines(address);
    FilterJoinIsPresentLines(lines);
    if Truthy(lines[0]) && Truthy(lines[1]) && Truthy(lines[2]) {
      ThreePresentLines(lines);
    }
  }

  /** Three present lines give "first, second, third". */
  lemma ThreePresentLines(lines: seq<JsVal>)
    requires |lines| == 3 && Truthy(lines[0]) && Truthy(lines[1]) && Truthy(lines[2])
    ensures PresentLines(lines) == Some(ToJsString(lines[0]) + ", " + ToJsString(lines[1]) + ", " + ToJsString(lines[2]))
  {
    var a, b, c := ToJsString(lines[0]), ToJsString(lines[1]), ToJsString(lines[2]);
    assert PresentLines(lines[2..]) == Some(c) by {
      assert lines[2..][1..] == [];
    }
    assert PresentLines(lines[1..]) == Some(b + ", " + c) by {
      assert lines[1..][1..] == lines[2..];
    }
    assert a + ", " + (b + ", " + c) == a + ", " + b + ", " + c;
  }

  // ----- What the schema makes of an extracted report -----

  /** A value the "Unknown" fallback is applied to casts to a non-empty string exactly when the value
      itself is acceptable to a String path. */
  lemma FallbackCastable(v: JsVal)
    ensures NonEmptyStringLike(Or(v, Unknown)) <==> StringLike(v)
    ensures StringLike(Or(v, Unknown)) <==> StringLike(v)
  {
  }

  /** The text leaves of one account element that reach a String path unchanged. */
  predicate AccountTextLeaves(account: JsVal)
  {
    var address := Prop(account, "CAIS_Holder_Address_Details");
    && StringLike(Prop(account, "Account_Number"))
    && StringLike(Prop(address, "City_non_normalized"))
    && StringLike(Prop(address, "State_non_normalized"))
    && StringLike(Prop(address, "ZIP_Postal_Code_non_normalized"))
  }

  /** The text leaves of a report that reach a String path unchanged: everything else the extractor
      hands over is a string it built itself or a number. */
  predicate TextLeaves(report: JsVal)
  {
    var details := Get(report, AccountDetailsPath);
    && StringLike(Get(report, ApplicantPath + ["MobilePhoneNumber"]))
    && StringLike(Get(ElementZero(details), HolderPanPath))
    && StringLike(Get(report, ["CreditProfileHeader", "ReportNumber"]))
    && (details.Arr? ==> forall i :: 0 <= i < |details.items| ==> AccountTextLeaves(details.items[i]))
  }

  /** Whatever document the extractor accepts, `save()` accepts its result exactly when the text leaves
      that pass through unchanged are acceptable to their String paths: the required strings the
      extractor builds are never empty, and every number it supplies is present. */
  lemma ExtractedReportSaves(xmlResult: JsVal, now: int)
    requires ExtractCreditData(xmlResult).Ok?
    ensures CastReport(ExtractCreditData(xmlResult).value, now).Ok? <==> TextLeaves(Prop(xmlResult, "INProfileResponse"))
  {
    var report := Prop(xmlResult, "INProfileResponse");
    ExtractedAccountsSave(Get(report, AccountDetailsPath));
  }

  /** The accounts the extractor builds all cast exactly when their text leaves are acceptable. */
  lemma ExtractedAccountsSave(details: JsVal)
    requires ExtractAccounts(details).Ok?
    ensures var accounts := ExtractAccounts(details).value;
      (forall i :: 0 <= i < |accounts| ==> AccountCastable(accounts[i])) <==>
      (details.Arr? ==> forall i :: 0 <= i < |details.items| ==> AccountTextLeaves(details.items[i]))
  {
    var accounts := ExtractAccounts(details).value;
    if details.Arr? {
      forall i | 0 <= i < |details.items|
        ensures AccountCastable(accounts[i]) <==> AccountTextLeaves(details.items[i])
      {
        assert ExtractAccount(details.items[i]) == Ok(accounts[i]);
        ExtractedAccountCastable(details.items[i]);
      }
    }
  }

  /** An account the callback builds casts exactly when its text leaves are acceptable. */
  lemma ExtractedAccountCastable(account: JsVal)
    requires ExtractAccount(account).Ok?
    ensures AccountCastable(ExtractAccount(account).value) <==> AccountTextLeaves(account)
  {
    FallbackCastable(Prop(account, "Account_Number"));
  }
}

/** The dashboard's client-side logic: the naive CSV text parse that turns
    an uploaded file into the rows sent to the upload route, the net-worth
    helpers over the financial form, and the guard in front of the manual
    entry request. */
module Dashboard {
  import opened Wrappers
  import opened JsText
  import opened Records
  import opened Normalizers

  // ---------------------------------------------------------------------
  // The CSV text parse

  /** `obj` of one row: header name to column text, `None` for `undefined`
      (a row with fewer columns than headers). */
  type RowObject = map<string, Option<string>>

  /** `cols[i]`. */
  function Column(cols: seq<string>, i: nat): Option<string> {
    if i < |cols| then Some(cols[i]) else None
  }

  /** `obj[key]`, `undefined` for a key the row does not have. */
  function Get(obj: RowObject, key: string): Option<string> {
    if key in obj then obj[key] else None
  }

  /** The object after `headers.forEach((h, i) => (obj[h] = cols[i]))`. */
  function Bound(headers: seq<string>, cols: seq<string>): RowObject
    decreases |headers|
  {
    if headers == [] then map[]
    else Bound(headers[..|headers| - 1], cols)[headers[|headers| - 1] := Column(cols, |headers| - 1)]
  }

  /** The `forEach` that fills the row object, one header at a time. */
  method BindRow(headers: seq<string>, cols: seq<string>) returns (obj: RowObject)
    ensures obj == Bound(headers, cols)
  {
    obj := map[];
    for i := 0 to |headers|
      invariant obj == Bound(headers[..i], cols)
    {
      obj := obj[headers[i] := Column(cols, i)];
      assert headers[..i + 1][..i] == headers[..i];
    }
    assert headers[..|headers|] == headers;
  }

  /** The object has exactly the header names as keys, and a header name
      holds the column of its LAST occurrence among the headers. */
  lemma {:induction false} BoundMeaning(headers: seq<string>, cols: seq<string>)
    ensures forall k :: k in Bound(headers, cols) <==> k in headers
    ensures forall i :: 0 <= i < |headers| && (forall j :: i < j < |headers| ==> headers[j] != headers[i]) ==>
      Bound(headers, cols)[headers[i]] == Column(cols, i)
    decreases |headers|
  {
    if headers != [] {
      var n := |headers| - 1;
      var prefix := headers[..n];
      BoundMeaning(prefix, cols);
      assert headers == prefix + [headers[n]];
      forall i | 0 <= i < |headers| && (forall j :: i < j < |headers| ==> headers[j] != headers[i])
        ensures Bound(headers, cols)[headers[i]] == Column(cols, i)
      {
        if i < n {
          assert headers[n] != headers[i];
          assert prefix[i] == headers[i];
          assert forall j :: i < j < |prefix| ==> prefix[j] != prefix[i];
        }
      }
    }
  }

  /** The row the client sends: `date`, `description`, `amount`, `type`. */
  datatype ClientRow = ClientRow(date: Option<string>, description: string, amount: Option<string>, kind: string)

  /** `obj.date || obj.transaction_date`, `obj.description || obj.desc ||
      obj.merchant || ""`, `obj.amount`, `obj.type || "debit"`. */
  function RowOf(obj: RowObject): ClientRow {
    ClientRow(if Truthy(Get(obj, "date")) then Get(obj, "date") else Get(obj, "transaction_date"),
              Pick(Get(obj, "description"), Pick(Get(obj, "desc"), Pick(Get(obj, "merchant"), ""))),
              Get(obj, "amount"),
              Pick(Get(obj, "type"), "debit"))
  }

  /** The header aliases of a row: the first truthy of `date` and
      `transaction_date` (the latter as it is otherwise); the first truthy of
      `description`, `desc` and `merchant`, else empty; the amount as it is;
      the type, "debit" when it is missing or empty. */
  lemma RowAliases(obj: RowObject)
    ensures Truthy(Get(obj, "date")) ==> RowOf(obj).date == Get(obj, "date")
    ensures !Truthy(Get(obj, "date")) ==> RowOf(obj).date == Get(obj, "transaction_date")
    ensures Truthy(Get(obj, "description")) ==> RowOf(obj).description == Get(obj, "description").value
    ensures !Truthy(Get(obj, "description")) && Truthy(Get(obj, "desc")) ==> RowOf(obj).description == Get(obj, "desc").value
    ensures !Truthy(Get(obj, "description")) && !Truthy(Get(obj, "desc")) && Truthy(Get(obj, "merchant")) ==>
      RowOf(obj).description == Get(obj, "merchant").value
    ensures !Truthy(Get(obj, "description")) && !Truthy(Get(obj, "desc")) && !Truthy(Get(obj, "merchant")) ==>
      RowOf(obj).description == ""
    ensures RowOf(obj).amount == Get(obj, "amount")
    ensures RowOf(obj).kind != ""
    ensures Truthy(Get(obj, "type")) ==> RowOf(obj).kind == Get(obj, "type").value
    ensures !Truthy(Get(obj, "type")) ==> RowOf(obj).kind == "debit"
  {
  }

  /** `headerLine.split(",").map((h) => h.trim().toLowerCase())`. */
  function Headers(headerLine: string): (r: seq<string>)
    ensures |r| == |Split(headerLine, ',')|
    ensures forall i :: 0 <= i < |r| ==> r[i] == Lower(Trim(Split(headerLine, ',')[i]))
  {
    var names := Split(headerLine, ',');
    seq(|names|, i requires 0 <= i < |names| => Lower(Trim(names[i])))
  }

  /** The non-empty lines of the file. */
  function Lines(text: string): seq<string> {
    NonEmpty(SplitLines(text))
  }

  /** The row made of one line under the given headers. */
  function RowFor(headers: seq<string>, line: string): ClientRow {
    RowOf(Bound(headers, Split(line, ',')))
  }

  /** The rows `uploadCsv` sends for a file's text; `None` when the file has
      no non-empty line, where `headerLine.split` throws on `undefined`.
      Every other line is one row, bound to the header line. */
  function ParseCsv(text: string): (r: Option<seq<ClientRow>>)
    ensures r.None? <==> Lines(text) == []
    ensures r.Some? ==> |r.value| == |Lines(text)| - 1
    ensures r.Some? ==> forall i :: 0 <= i < |r.value| ==> r.value[i] == RowFor(Headers(Lines(text)[0]), Lines(text)[i + 1])
  {
    var lines := Lines(text);
    if lines == [] then None
    else
      var headers := Headers(lines[0]);
      Some(seq(|lines| - 1, i requires 0 <= i < |lines| - 1 => RowFor(headers, lines[i + 1])))
  }

  /** `ParseCsv` in terms of its rows one by one. */
  lemma ParseCsvRows(text: string, rows: seq<ClientRow>)
    requires Lines(text) != [] && |rows| == |Lines(text)| - 1
    requires forall m :: 0 <= m < |rows| ==> rows[m] == RowFor(Headers(Lines(text)[0]), Lines(text)[m + 1])
    ensures ParseCsv(text) == Some(rows)
  {
    assert ParseCsv(text).value == rows;
  }

  /** The parse inside `uploadCsv`: the header line, then `lines.map`, whose
      callback fills a fresh object per line. */
  method UploadCsvRows(text: string) returns (rows: Option<seq<ClientRow>>)
    ensures rows == ParseCsv(text)
  {
    var all := Lines(text);
    if all == [] {
      return None;
    }
    var headerLine, lines := all[0], all[1..];
    var headers := Headers(headerLine);
    var mapped: seq<ClientRow> := [];
    for k := 0 to |lines|
      invariant |mapped| == k
      invariant forall m :: 0 <= m < k ==> mapped[m] == RowFor(headers, all[m + 1])
    {
      var cols := Split(lines[k], ',');
      var obj := BindRow(headers, cols);
      assert lines[k] == all[k + 1];
      mapped := mapped + [RowOf(obj)];
    }
    ParseCsvRows(text, mapped);
    rows := Some(mapped);
  }

  /** The JSON body element the upload route receives for a client row:
      the client never sends `desc`, and `JSON.stringify` drops an
      `undefined` field. */
  function ToUploadRow(r: ClientRow): UploadRow {
    UploadRow(r.date, Some(r.description), None, r.amount, Some(r.kind))
  }

  /** A file whose only description column is headed `merchant` still
      reaches the server with that text as the description, although the
      upload route itself does not know the `merchant` alias: the alias is
      resolved on the client. */
  lemma MerchantReachesServer(headers: seq<string>, cols: seq<string>, i: nat,
                              parseNum: NumberParser, parseDate: DateParser, now: Time)
    requires i < |headers| && i < |cols| && cols[i] != ""
    requires headers[i] == "merchant"
    requires forall j :: 0 <= j < |headers| ==> headers[j] != "description" && headers[j] != "desc"
    requires forall j :: i < j < |headers| ==> headers[j] != "merchant"
    ensures RowOf(Bound(headers, cols)).description == cols[i]
    ensures FromUploadRow(ToUploadRow(RowOf(Bound(headers, cols))), parseNum, parseDate, now).description == cols[i]
  {
    var obj := Bound(headers, cols);
    BoundMeaning(headers, cols);
    RowAliases(obj);
    FromUploadRowFields(ToUploadRow(RowOf(obj)), parseNum, parseDate, now);
    assert "description" !in headers && "desc" !in headers;
    assert Get(obj, "description") == None && Get(obj, "desc") == None;
    assert Get(obj, "merchant") == Some(cols[i]);
  }

  /** Header names are matched after trimming and lower-casing, so
      ` Amount ` heads the `amount` column. */
  lemma HeadersNormalized(headerLine: string, cols: seq<string>, i: nat)
    requires i < |Split(headerLine, ',')| && i < |cols|
    requires Lower(Trim(Split(headerLine, ',')[i])) == "amount"
    requires forall j :: i < j < |Split(headerLine, ',')| ==> Lower(Trim(Split(headerLine, ',')[j])) != "amount"
    ensures RowOf(Bound(Headers(headerLine), cols)).amount == Some(cols[i])
  {
    var hs := Headers(headerLine);
    BoundMeaning(hs, cols);
    RowAliases(Bound(hs, cols));
    assert hs[i] == "amount";
    assert forall j :: i < j < |hs| ==> hs[j] != hs[i];
  }

  // ---------------------------------------------------------------------
  // Net worth

  /** The financial form: field name to the text typed in. */
  type FormData = map<string, string>

  /** `parseFloat`: `None` for `NaN`. */
  type FloatParser = string -> Option<real>

  const AssetFields: seq<string> :=
    ["primaryResidence", "otherRealEstate", "retirementAccounts", "investmentAccounts", "cashAccounts"]

  const LiabilityFields: seq<string> :=
    ["mortgage", "carLoans", "creditCardDebt", "studentLoans", "otherDebts"]

  /** `parseFloat(formData[field]) || 0`: a missing or unparseable field is 0. */
  function FieldValue(fd: FormData, field: string, parse: FloatParser): real {
    if field in fd then (match parse(fd[field]) case Some(v) => v case None => 0.0) else 0.0
  }

  /** `fields.reduce((sum, field) => sum + value(field), 0)`. */
  function SumFields(fields: seq<string>, fd: FormData, parse: FloatParser): real {
    if fields == [] then 0.0
    else SumFields(fields[..|fields| - 1], fd, parse) + FieldValue(fd, fields[|fields| - 1], parse)
  }

  /** `calculateTotalAssets(formData)`, before formatting; 0 without a form. */
  function TotalAssets(formData: Option<FormData>, parse: FloatParser): real {
    match formData
    case None => 0.0
    case Some(fd) => SumFields(AssetFields, fd, parse)
  }

  /** `calculateTotalLiabilities(formData)`, before formatting; 0 without a
      form. */
  function TotalLiabilities(formData: Option<FormData>, parse: FloatParser): real {
    match formData
    case None => 0.0
    case Some(fd) => SumFields(LiabilityFields, fd, parse)
  }

  /** `calculateNetWorth(formData)`, before formatting. */
  function NetWorth(formData: Option<FormData>, parse: FloatParser): real {
    match formData
    case None => 0.0
    case Some(_) => TotalAssets(formData, parse) - TotalLiabilities(formData, parse)
  }

  /** The fold over five fields is their plain sum. */
  lemma SumFiveFields(fields: seq<string>, fd: FormData, parse: FloatParser)
    requires |fields| == 5
    ensures SumFields(fields, fd, parse) ==
      FieldValue(fd, fields[0], parse) + FieldValue(fd, fields[1], parse) + FieldValue(fd, fields[2], parse) +
      FieldValue(fd, fields[3], parse) + FieldValue(fd, fields[4], parse)
  {
    var f4, f3, f2, f1 := fields[..4], fields[..3], fields[..2], fields[..1];
    assert f4[..3] == f3 && f3[..2] == f2 && f2[..1] == f1 && f1[..0] == [];
    assert SumFields(f1, fd, parse) == FieldValue(fd, fields[0], parse);
    assert SumFields(f2, fd, parse) == SumFields(f1, fd, parse) + FieldValue(fd, fields[1], parse);
    assert SumFields(f3, fd, parse) == SumFields(f2, fd, parse) + FieldValue(fd, fields[2], parse);
    assert SumFields(f4, fd, parse) == SumFields(f3, fd, parse) + FieldValue(fd, fields[3], parse);
  }

  /** The totals are the plain sums of their five fields, and net worth is
      the five assets less the five liabilities. */
  lemma NetWorthExpanded(fd: FormData, parse: FloatParser)
    ensures TotalAssets(Some(fd), parse) ==
      FieldValue(fd, "primaryResidence", parse) + FieldValue(fd, "otherRealEstate", parse) +
      FieldValue(fd, "retirementAccounts", parse) + FieldValue(fd, "investmentAccounts", parse) +
      FieldValue(fd, "cashAccounts", parse)
    ensures TotalLiabilities(Some(fd), parse) ==
      FieldValue(fd, "mortgage", parse) + FieldValue(fd, "carLoans", parse) +
      FieldValue(fd, "creditCardDebt", parse) + FieldValue(fd, "studentLoans", parse) +
      FieldValue(fd, "otherDebts", parse)
    ensures NetWorth(Some(fd), parse) == TotalAssets(Some(fd), parse) - TotalLiabilities(Some(fd), parse)
  {
    SumFiveFields(AssetFields, fd, parse);
    SumFiveFields(LiabilityFields, fd, parse);
  }

  /** Two forms that agree on the value of every listed field give the same
      sum over those fields. */
  lemma {:induction false} SumFieldsAgree(fields: seq<string>, fd1: FormData, fd2: FormData, parse: FloatParser)
    requires forall i :: 0 <= i < |fields| ==> FieldValue(fd1, fields[i], parse) == FieldValue(fd2, fields[i], parse)
    ensures SumFields(fields, fd1, parse) == SumFields(fields, fd2, parse)
  {
    if fields != [] {
      SumFieldsAgree(fields[..|fields| - 1], fd1, fd2, parse);
    }
  }

  /** A field whose text does not parse counts as if it were not filled in. */
  lemma UnparseableCountsZero(fd: FormData, field: string, text: string, parse: FloatParser)
    requires parse(text).None?
    ensures TotalAssets(Some(fd[field := text]), parse) == TotalAssets(Some(fd - {field}), parse)
    ensures TotalLiabilities(Some(fd[field := text]), parse) == TotalLiabilities(Some(fd - {field}), parse)
  {
    SumFieldsAgree(AssetFields, fd[field := text], fd - {field}, parse);
    SumFieldsAgree(LiabilityFields, fd[field := text], fd - {field}, parse);
  }

  /** A form field outside the five asset fields does not change the total
      assets. */
  lemma OtherFieldsIgnored(fd: FormData, field: string, text: string, parse: FloatParser)
    requires field !in AssetFields
    ensures TotalAssets(Some(fd[field := text]), parse) == TotalAssets(Some(fd), parse)
  {
    forall i | 0 <= i < |AssetFields|
      ensures FieldValue(fd[field := text], AssetFields[i], parse) == FieldValue(fd, AssetFields[i], parse)
    {
      assert AssetFields[i] != field;
    }
    SumFieldsAgree(AssetFields, fd[field := text], fd, parse);
  }

  // ---------------------------------------------------------------------
  // The manual-entry guard

  /** The manual-entry form; every field is text, `type` defaults to
      "debit". */
  datatype ManualForm = ManualForm(date: string, description: string, amount: string, kind: string, category: string)

  /** `addManualTransaction`: nothing is sent when the description or the
      amount is empty; otherwise the whole form is the request body. */
  function ManualRequest(f: ManualForm): (r: Option<ManualInput>)
    ensures r.Some? <==> f.description != "" && f.amount != ""
    ensures r.Some? ==> r.value == ManualInput(Some(f.date), Some(f.description), Some(f.amount), Some(f.kind), Some(f.category))
  {
    if f.description == "" || f.amount == "" then None
    else Some(ManualInput(Some(f.date), Some(f.description), Some(f.amount), Some(f.kind), Some(f.category)))
  }

  /** The client guard checks two of the four fields the manual route
      requires: a sent form passes the route's check exactly when its date
      and type are non-empty as well. */
  lemma ManualGuardAgainstRoute(f: ManualForm)
    requires ManualRequest(f).Some?
    ensures ManualComplete(ManualRequest(f).value) <==> f.date != "" && f.kind != ""
  {
  }
}

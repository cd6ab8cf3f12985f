/** The three mappings from external records to the in-memory transaction:
    a Nessie bank record, a row of an upload request, and the manual-entry
    form. `Number(...)` and `new Date(...)` are parameters. */
module Normalizers {
  import opened Wrappers
  import opened JsText
  import opened Records

  /** `Number(s)` on a string: the amount in cents, `None` for `NaN`. */
  type NumberParser = string -> Option<Cents>

  /** `new Date(s)`: the instant, `None` for an Invalid Date. */
  type DateParser = string -> Option<Time>

  /** `Number(s) || 0`: `NaN` (also from an absent field) becomes 0. */
  function NumberOrZero(parseNum: NumberParser, s: Option<string>): Cents {
    if s.Some? then parseNum(s.value).GetOr(0) else 0
  }

  /** `type === "credit"` after lower-casing, otherwise "debit". */
  function NormalizeType(kind: string): (r: string)
    ensures r == "credit" || r == "debit"
    ensures r == "credit" <==> Lower(kind) == "credit"
  {
    if Lower(kind) == "credit" then "credit" else "debit"
  }

  /** The record pushed for one Nessie transaction. */
  function FromBank(t: BankRecord, parseDate: DateParser, now: Time): Tx {
    Tx(date := if Truthy(t.transactionDate) then parseDate(t.transactionDate.value)
               else if Truthy(t.purchaseDate) then parseDate(t.purchaseDate.value)
               else Some(now),
       description := Pick(t.description, Pick(t.payee, "Transaction")),
       amount := Some(t.amount.GetOr(0)),
       kind := if t.transactionType == Some("deposit") then "credit" else "debit",
       source := "bank",
       category := None,
       reason := None,
       raw := BankRaw(t))
  }

  /** A bank record maps to a bank-source record, kept whole as `raw`, with
      no category; its description is the first non-empty of description
      and payee, else "Transaction"; its amount is the record's, else 0; it
      is a credit exactly for a deposit; its date is the first non-empty of
      the transaction and purchase dates, parsed, else now. */
  lemma FromBankFields(t: BankRecord, parseDate: DateParser, now: Time)
    ensures FromBank(t, parseDate, now).source == "bank" && FromBank(t, parseDate, now).raw == BankRaw(t)
    ensures FromBank(t, parseDate, now).category == None && FromBank(t, parseDate, now).reason == None
    ensures FromBank(t, parseDate, now).description != ""
    ensures Truthy(t.description) ==> FromBank(t, parseDate, now).description == t.description.value
    ensures !Truthy(t.description) && Truthy(t.payee) ==> FromBank(t, parseDate, now).description == t.payee.value
    ensures !Truthy(t.description) && !Truthy(t.payee) ==> FromBank(t, parseDate, now).description == "Transaction"
    ensures FromBank(t, parseDate, now).amount == Some(if t.amount.Some? then t.amount.value else 0)
    ensures FromBank(t, parseDate, now).kind == "credit" <==> t.transactionType == Some("deposit")
    ensures FromBank(t, parseDate, now).kind == "credit" || FromBank(t, parseDate, now).kind == "debit"
    ensures Truthy(t.transactionDate) ==> FromBank(t, parseDate, now).date == parseDate(t.transactionDate.value)
    ensures !Truthy(t.transactionDate) && Truthy(t.purchaseDate) ==> FromBank(t, parseDate, now).date == parseDate(t.purchaseDate.value)
    ensures !Truthy(t.transactionDate) && !Truthy(t.purchaseDate) ==> FromBank(t, parseDate, now).date == Some(now)
  {
  }

  /** The unified record for one uploaded row. */
  function FromUploadRow(t: UploadRow, parseNum: NumberParser, parseDate: DateParser, now: Time): Tx {
    Tx(date := if Truthy(t.date) then parseDate(t.date.value) else Some(now),
       description := Pick(t.description, Pick(t.desc, "Transaction")),
       amount := Some(NumberOrZero(parseNum, t.amount)),
       kind := NormalizeType(Pick(t.kind, "debit")),
       source := "csv",
       category := None,
       reason := None,
       raw := CsvRaw(t))
  }

  /** An uploaded row maps to a csv-source record, kept whole as `raw`, with
      no category; its type is credit exactly for a (case-insensitive)
      "credit"; its description is the first non-empty of description and
      desc, else "Transaction"; its amount is the parsed number, 0 when
      absent or `NaN`; its date is the parsed date, now when absent. */
  lemma FromUploadRowFields(t: UploadRow, parseNum: NumberParser, parseDate: DateParser, now: Time)
    ensures FromUploadRow(t, parseNum, parseDate, now).source == "csv" && FromUploadRow(t, parseNum, parseDate, now).raw == CsvRaw(t)
    ensures FromUploadRow(t, parseNum, parseDate, now).category == None && FromUploadRow(t, parseNum, parseDate, now).reason == None
    ensures FromUploadRow(t, parseNum, parseDate, now).kind == "credit" || FromUploadRow(t, parseNum, parseDate, now).kind == "debit"
    ensures FromUploadRow(t, parseNum, parseDate, now).kind == "credit" <==> Truthy(t.kind) && Lower(t.kind.value) == "credit"
    ensures FromUploadRow(t, parseNum, parseDate, now).description != ""
    ensures Truthy(t.description) ==> FromUploadRow(t, parseNum, parseDate, now).description == t.description.value
    ensures !Truthy(t.description) && Truthy(t.desc) ==> FromUploadRow(t, parseNum, parseDate, now).description == t.desc.value
    ensures !Truthy(t.description) && !Truthy(t.desc) ==> FromUploadRow(t, parseNum, parseDate, now).description == "Transaction"
    ensures FromUploadRow(t, parseNum, parseDate, now).amount.Some?
    ensures t.amount.None? || parseNum(t.amount.value).None? ==> FromUploadRow(t, parseNum, parseDate, now).amount == Some(0)
    ensures t.amount.Some? && parseNum(t.amount.value).Some? ==> FromUploadRow(t, parseNum, parseDate, now).amount == parseNum(t.amount.value)
    ensures Truthy(t.date) ==> FromUploadRow(t, parseNum, parseDate, now).date == parseDate(t.date.value)
    ensures !Truthy(t.date) ==> FromUploadRow(t, parseNum, parseDate, now).date == Some(now)
  {
    assert Lower("debit") == "debit";
  }

  /** `transactions.map(...)` of the upload route. */
  function UnifyUpload(rows: seq<UploadRow>, parseNum: NumberParser, parseDate: DateParser, now: Time): (r: seq<Tx>)
    ensures |r| == |rows|
    ensures forall i :: 0 <= i < |rows| ==> r[i] == FromUploadRow(rows[i], parseNum, parseDate, now)
  {
    seq(|rows|, i requires 0 <= i < |rows| => FromUploadRow(rows[i], parseNum, parseDate, now))
  }

  /** The four fields the manual route requires (`!date || ... || !type` is
      a 400). */
  predicate ManualComplete(m: ManualInput) {
    Truthy(m.date) && Truthy(m.description) && Truthy(m.amount) && Truthy(m.kind)
  }

  /** The transaction the manual route builds before categorizing it, or
      `None` for the 400 answer. */
  function NormalizeManual(m: ManualInput, parseNum: NumberParser, parseDate: DateParser): (r: Option<Tx>)
    ensures r.Some? <==> ManualComplete(m)
    ensures r.Some? ==> r.value.date == parseDate(m.date.value)
    ensures r.Some? ==> r.value.description == Trim(m.description.value)
    ensures r.Some? ==> r.value.amount == parseNum(m.amount.value)
    ensures r.Some? ==> (r.value.kind == "credit" <==> Lower(m.kind.value) == "credit")
    ensures r.Some? ==> r.value.kind == "credit" || r.value.kind == "debit"
    ensures r.Some? ==> r.value.source == "manual" && r.value.raw == ManualRaw(m) && r.value.reason == None
    ensures r.Some? ==> r.value.category == (if Truthy(m.category) then m.category else None)
  {
    if !ManualComplete(m) then None
    else
      Some(Tx(date := parseDate(m.date.value),
              description := Trim(m.description.value),
              amount := parseNum(m.amount.value),
              kind := NormalizeType(m.kind.value),
              source := "manual",
              category := if Truthy(m.category) then m.category else None,
              reason := None,
              raw := ManualRaw(m)))
  }
}

/** Acquisition of bank records for the import route: the Nessie demo API
    (its replies are parameters) with a fall back to the fixed mock data set
    of thirty transactions, one per day over the last thirty days. */
module BankImport {
  import opened Wrappers
  import opened JsText
  import opened Records
  import opened TransactionSchema
  import opened Normalizers

  // ---------------------------------------------------------------------
  // getMockTransactions

  /** One literal of the mock array: description, `amount`, `target` and
      `type`; entry k (from 0) is dated k + 1 days before now. */
  datatype MockRow = MockRow(description: string, amount: Option<Cents>, target: Option<Cents>, kind: string)

  /** The mock entries as the code writes them. Entry 17 carries its amount
      in a misnamed `target` field. */
  const MockRows: seq<MockRow> := [
    MockRow("Walmart Grocery Store", Some(8543), None, "debit"),
    MockRow("Salary Direct Deposit", Some(350000), None, "credit"),
    MockRow("Starbucks Coffee", Some(575), None, "debit"),
    MockRow("Uber Ride", Some(1825), None, "debit"),
    MockRow("Electric Utility Bill", Some(12500), None, "debit"),
    MockRow("Amazon Purchase", Some(6799), None, "debit"),
    MockRow("Rent Payment", Some(120000), None, "debit"),
    MockRow("Netflix Subscription", Some(1599), None, "debit"),
    MockRow("Gas Station Fill-up", Some(4500), None, "debit"),
    MockRow("Kroger Supermarket", Some(7218), None, "debit"),
    MockRow("Planet Fitness Gym", Some(2999), None, "debit"),
    MockRow("McDonald's Restaurant", Some(1245), None, "debit"),
    MockRow("Target Shopping", Some(9432), None, "debit"),
    MockRow("Internet Bill Verizon", Some(7999), None, "debit"),
    MockRow("Movie Theater AMC", Some(2400), None, "debit"),
    MockRow("Insurance Premium", Some(15600), None, "debit"),
    MockRow("Freelance Income", Some(85000), None, "credit"),
    MockRow("Home Depot Hardware", None, Some(4367), "debit"),
    MockRow("Chipotle Mexican Grill", Some(1185), None, "debit"),
    MockRow("Shell Gas Station", Some(5230), None, "debit"),
    MockRow("CVS Pharmacy", Some(2876), None, "debit"),
    MockRow("Apple iCloud Storage", Some(299), None, "debit"),
    MockRow("Whole Foods Market", Some(8945), None, "debit"),
    MockRow("Spotify Premium", Some(999), None, "debit"),
    MockRow("Bank Interest", Some(250), None, "credit"),
    MockRow("Best Buy Electronics", Some(19999), None, "debit"),
    MockRow("Pizza Hut Delivery", Some(1975), None, "debit"),
    MockRow("Water Utility Bill", Some(4500), None, "debit"),
    MockRow("ATM Cash Withdrawal", Some(10000), None, "debit"),
    MockRow("Cashback Reward", Some(2500), None, "credit")
  ]

  /** The mock array as built at time `now`. */
  function MockTable(now: Time): (t: seq<MockItem>)
    ensures |t| == |MockRows|
    ensures forall i :: 0 <= i < |t| ==> t[i].date == now - (i + 1) * DayMillis
  {
    seq(|MockRows|, i requires 0 <= i < |MockRows| =>
      var row := MockRows[i];
      MockItem(row.description, row.amount, row.target, row.kind, now - (i + 1) * DayMillis))
  }

  /** Every entry but 17 carries its amount, every type is in the enum and
      every description is non-empty with no white space at either end. */
  lemma MockRowsWellFormed()
    ensures |MockRows| == 30
    ensures forall i :: 0 <= i < 30 ==> TypeAllowed(MockRows[i].kind)
    ensures forall i :: 0 <= i < 30 && i != 17 ==> MockRows[i].amount.Some?
    ensures forall i :: 0 <= i < 30 ==> Trimmed(MockRows[i].description)
  {
    MockRowsStartWithLetter();
    MockRowsEndWithLetter();
  }

  predicate Letter(c: char) { 'A' <= c <= 'Z' || 'a' <= c <= 'z' }

  lemma MockRowsStartWithLetter()
    ensures forall i :: 0 <= i < 30 ==> MockRows[i].description != [] && Letter(MockRows[i].description[0])
  {
  }

  lemma MockRowsEndWithLetter()
    ensures forall i :: 0 <= i < 30 ==>
      MockRows[i].description != [] && Letter(MockRows[i].description[|MockRows[i].description| - 1])
  {
  }

  /** Non-empty, and neither end is white space. */
  predicate Trimmed(s: string) {
    s != [] && !IsSpace(s[0]) && !IsSpace(s[|s| - 1])
  }

  /** `{ ...tx, source: "bank", raw: { mock: true, original: tx } }`. */
  function FromMock(item: MockItem): Tx {
    Tx(Some(item.date), item.description, item.amount, item.kind, "bank", None, None, MockRaw(item))
  }

  /** The mock set after the fix of entry 17 (its amount moved from `target`
      to `amount`). */
  function MockTransactions(now: Time): (r: seq<Tx>)
    ensures |r| == 30 == |MockTable(now)|
    ensures forall i :: 0 <= i < 30 && i != 17 ==> r[i] == FromMock(MockTable(now)[i])
    ensures r[17] == FromMock(MockTable(now)[17].(amount := Some(4367), target := None))
  {
    MockRowsWellFormed();
    var t := MockTable(now);
    seq(30, i requires 0 <= i < 30 =>
      FromMock(if i == 17 then t[17].(amount := Some(4367), target := None) else t[i]))
  }

  /** A mock entry with a trimmed description, an amount and a type in the
      enum passes the schema. */
  lemma FromMockAdmissible(item: MockItem)
    requires Trimmed(item.description) && item.amount.Some? && TypeAllowed(item.kind)
    ensures Admissible(FromMock(item), SchemaSources)
  {
    TrimKeeps(item.description);
  }

  /** `getMockTransactions()`: builds the array, repairs entry 17 in place and
      maps every entry to a bank record. */
  method GetMockTransactions(now: Time) returns (r: seq<Tx>)
    ensures r == MockTransactions(now)
  {
    var table := MockTable(now);
    var mockData := new MockItem[|table|](i requires 0 <= i < |table| => table[i]);
    mockData[17] := mockData[17].(amount := Some(4367));
    mockData[17] := mockData[17].(target := None);
    r := [];
    for i := 0 to mockData.Length
      invariant |r| == i
      invariant forall j :: 0 <= j < i ==> r[j] == FromMock(mockData[j])
    {
      r := r + [FromMock(mockData[i])];
    }
    assert forall j :: 0 <= j < 30 ==> r[j] == MockTransactions(now)[j];
  }

  /** The thirty mock records are dated one per day over the thirty days
      before `now`, carry an amount (the repaired entry included), have no
      category yet and all pass the schema. */
  lemma MockTransactionsAdmissible(now: Time)
    ensures forall i :: 0 <= i < 30 ==> MockTransactions(now)[i].date == Some(now - (i + 1) * DayMillis)
    ensures forall i :: 0 <= i < 30 ==> MockTransactions(now)[i].amount.Some?
    ensures MockTransactions(now)[17].amount == Some(4367)
    ensures forall i :: 0 <= i < 30 ==> MockTransactions(now)[i].category == None
    ensures forall i :: 0 <= i < 30 ==> Admissible(MockTransactions(now)[i], SchemaSources)
  {
    MockRowsWellFormed();
    var m := MockTransactions(now);
    var t := MockTable(now);
    forall i | 0 <= i < 30
      ensures m[i].date == Some(now - (i + 1) * DayMillis)
      ensures m[i].amount.Some? && m[i].category == None
      ensures Admissible(m[i], SchemaSources)
    {
      var item := if i == 17 then t[17].(amount := Some(4367), target := None) else t[i];
      assert m[i] == FromMock(item);
      FromMockAdmissible(item);
    }
  }

  // ---------------------------------------------------------------------
  // fetchNessieTransactions

  /** The reply to `GET /accounts`: a failure (network, timeout, not JSON,
      not an array) or the list of account ids. */
  datatype AccountsReply = AccountsFailed | AccountList(ids: seq<string>)

  /** The reply to `GET /accounts/{id}/transactions`. */
  datatype TxReply = TxFailed | TxList(records: seq<BankRecord>)

  /** The API key and what the API answers; `transactions(k)` is the reply
      for the k-th selected account. */
  datatype NessieEnv = NessieEnv(key: Option<string>, accounts: AccountsReply, transactions: nat -> TxReply)

  /** `slice(0, 2)`. */
  function SelectedAccounts(ids: seq<string>): (r: seq<string>)
    ensures |r| == (if |ids| < 2 then |ids| else 2)
    ensures r == ids[..|r|]
  {
    if |ids| <= 2 then ids else ids[..2]
  }

  /** The records of one account reply, mapped; a failed reply adds nothing. */
  function AccountRecords(reply: TxReply, parseDate: DateParser, now: Time): (r: seq<Tx>)
    ensures reply.TxFailed? ==> r == []
    ensures reply.TxList? ==> |r| == |reply.records|
    ensures reply.TxList? ==> forall j :: 0 <= j < |r| ==> r[j] == FromBank(reply.records[j], parseDate, now)
  {
    match reply
    case TxFailed => []
    case TxList(records) => seq(|records|, j requires 0 <= j < |records| => FromBank(records[j], parseDate, now))
  }

  /** `all` after the first `n` selected accounts. */
  function Collected(env: NessieEnv, n: nat, parseDate: DateParser, now: Time): seq<Tx> {
    if n == 0 then [] else Collected(env, n - 1, parseDate, now) + AccountRecords(env.transactions(n - 1), parseDate, now)
  }

  /** What `fetchNessieTransactions()` returns. */
  function NessieTransactions(env: NessieEnv, parseDate: DateParser, now: Time): seq<Tx> {
    if !Truthy(env.key) || env.accounts.AccountsFailed? then MockTransactions(now)
    else
      var all := Collected(env, |SelectedAccounts(env.accounts.ids)|, parseDate, now);
      if |all| == 0 then MockTransactions(now) else all
  }

  /** Every record collected from the API is a mapped bank record with no
      category yet. */
  lemma {:induction false} CollectedAreBankRecords(env: NessieEnv, n: nat, parseDate: DateParser, now: Time)
    ensures forall i :: 0 <= i < |Collected(env, n, parseDate, now)| ==>
      Collected(env, n, parseDate, now)[i].source == "bank" &&
      Collected(env, n, parseDate, now)[i].category == None &&
      Collected(env, n, parseDate, now)[i].raw.BankRaw?
  {
    if n > 0 {
      CollectedAreBankRecords(env, n - 1, parseDate, now);
      var prev: seq<Tx> := Collected(env, n - 1, parseDate, now);
      var more: seq<Tx> := AccountRecords(env.transactions(n - 1), parseDate, now);
      var all: seq<Tx> := prev + more;
      assert Collected(env, n, parseDate, now) == all;
      AccountRecordsAreBankRecords(env.transactions(n - 1), parseDate, now);
      forall i | |prev| <= i < |all|
        ensures all[i].source == "bank" && all[i].category == None && all[i].raw.BankRaw?
      {
        assert all[i] == more[i - |prev|];
      }
    }
  }

  /** The records of one account reply are mapped bank records with no
      category yet. */
  lemma AccountRecordsAreBankRecords(reply: TxReply, parseDate: DateParser, now: Time)
    ensures forall j :: 0 <= j < |AccountRecords(reply, parseDate, now)| ==>
      AccountRecords(reply, parseDate, now)[j].source == "bank" &&
      AccountRecords(reply, parseDate, now)[j].category == None &&
      AccountRecords(reply, parseDate, now)[j].raw.BankRaw?
  {
    var r := AccountRecords(reply, parseDate, now);
    forall j | 0 <= j < |r|
      ensures r[j].source == "bank" && r[j].category == None && r[j].raw.BankRaw?
    {
      FromBankFields(reply.records[j], parseDate, now);
    }
  }

  /** Nothing is collected exactly when every one of the first `n` account
      replies adds no record. */
  lemma {:induction false} CollectedEmpty(env: NessieEnv, n: nat, parseDate: DateParser, now: Time)
    ensures Collected(env, n, parseDate, now) == [] <==>
      forall k :: 0 <= k < n ==> AccountRecords(env.transactions(k), parseDate, now) == []
  {
    if n > 0 {
      CollectedEmpty(env, n - 1, parseDate, now);
    }
  }

  /** Whatever the API answers, the import yields at least one record, and
      every record comes from the bank source without a category. */
  lemma NessieTransactionsBankRecords(env: NessieEnv, parseDate: DateParser, now: Time)
    ensures |NessieTransactions(env, parseDate, now)| > 0
    ensures forall i :: 0 <= i < |NessieTransactions(env, parseDate, now)| ==>
      NessieTransactions(env, parseDate, now)[i].source == "bank" &&
      NessieTransactions(env, parseDate, now)[i].category == None
  {
    if Truthy(env.key) && env.accounts.AccountList? {
      CollectedAreBankRecords(env, |SelectedAccounts(env.accounts.ids)|, parseDate, now);
    }
  }

  /** The import never goes without data: without a key, or when the API
      fails, or when every selected account yields nothing, the result is
      exactly the mock set; otherwise it is the API's records of the selected
      accounts. Either way it is non-empty, comes from the bank source and is
      not yet categorized. */
  lemma NessieTransactionsFallback(env: NessieEnv, parseDate: DateParser, now: Time)
    ensures |NessieTransactions(env, parseDate, now)| > 0
    ensures !Truthy(env.key) || env.accounts.AccountsFailed? ==> NessieTransactions(env, parseDate, now) == MockTransactions(now)
    ensures Truthy(env.key) && env.accounts.AccountList? ==>
      NessieTransactions(env, parseDate, now) ==
        (if Collected(env, |SelectedAccounts(env.accounts.ids)|, parseDate, now) == [] then MockTransactions(now)
         else Collected(env, |SelectedAccounts(env.accounts.ids)|, parseDate, now))
    ensures Truthy(env.key) && env.accounts.AccountList? ==>
      ((forall k :: 0 <= k < |SelectedAccounts(env.accounts.ids)| ==> AccountRecords(env.transactions(k), parseDate, now) == [])
         <==> NessieTransactions(env, parseDate, now) == MockTransactions(now) && Collected(env, |SelectedAccounts(env.accounts.ids)|, parseDate, now) == [])
    ensures forall i :: 0 <= i < |NessieTransactions(env, parseDate, now)| ==>
      NessieTransactions(env, parseDate, now)[i].source == "bank" &&
      NessieTransactions(env, parseDate, now)[i].category == None
  {
    NessieTransactionsBankRecords(env, parseDate, now);
    if Truthy(env.key) && env.accounts.AccountList? {
      CollectedEmpty(env, |SelectedAccounts(env.accounts.ids)|, parseDate, now);
    }
  }

  /** Without an API key the import fetches thirty records, every one of
      which passes the schema. */
  lemma NessieWithoutKeyAdmissible(env: NessieEnv, parseDate: DateParser, now: Time)
    requires !Truthy(env.key)
    ensures |NessieTransactions(env, parseDate, now)| == 30
    ensures forall i :: 0 <= i < 30 ==> Admissible(NessieTransactions(env, parseDate, now)[i], SchemaSources)
  {
    MockTransactionsAdmissible(now);
  }

  /** `(txs || []).forEach((t) => all.push({...}))`: one mapped record
      pushed per bank transaction, in order. */
  method PushRecords(all: seq<Tx>, txs: seq<BankRecord>, parseDate: DateParser, now: Time) returns (all': seq<Tx>)
    ensures all' == all + AccountRecords(TxList(txs), parseDate, now)
  {
    all' := all;
    for j := 0 to |txs|
      invariant all' == all + AccountRecords(TxList(txs[..j]), parseDate, now)
    {
      AccountRecordsSnoc(txs[..j], txs[j], parseDate, now);
      assert txs[..j + 1] == txs[..j] + [txs[j]];
      ghost var done := AccountRecords(TxList(txs[..j]), parseDate, now);
      var record := FromBank(txs[j], parseDate, now);
      all' := all' + [record];
      assert all' == all + (done + [record]);
    }
    assert txs[..|txs|] == txs;
  }

  /** The records of one more transaction are the records so far and its
      own. */
  lemma AccountRecordsSnoc(txs: seq<BankRecord>, t: BankRecord, parseDate: DateParser, now: Time)
    ensures AccountRecords(TxList(txs + [t]), parseDate, now) ==
            AccountRecords(TxList(txs), parseDate, now) + [FromBank(t, parseDate, now)]
  {
    assert forall j :: 0 <= j < |txs| ==> (txs + [t])[j] == txs[j];
  }

  /** `fetchNessieTransactions()`: request the accounts, keep the first two,
      push the mapped records of each account whose request succeeds, and
      fall back to the mock set. */
  method FetchNessieTransactions(env: NessieEnv, parseDate: DateParser, now: Time) returns (r: seq<Tx>)
    ensures r == NessieTransactions(env, parseDate, now)
  {
    if !Truthy(env.key) {
      r := GetMockTransactions(now);
      return;
    }
    match env.accounts
    case AccountsFailed =>
      r := GetMockTransactions(now);
    case AccountList(ids) =>
      var selected := SelectedAccounts(ids);
      var all: seq<Tx> := [];
      for k := 0 to |selected|
        invariant all == Collected(env, k, parseDate, now)
      {
        match env.transactions(k)
        case TxFailed =>
        case TxList(txs) =>
          all := PushRecords(all, txs, parseDate, now);
      }
      if |all| == 0 {
        r := GetMockTransactions(now);
      } else {
        r := all;
      }
  }
}

/** The three write routes of the transaction API, for an authenticated user:
    import from the bank (at most once per user), upload of client-parsed
    rows, and manual entry. The document store is a value the route reads
    and returns; the AI replies, the bank API and the parsers are parameters. */
module Routes {
  import opened Wrappers
  import opened JsText
  import opened Records
  import opened TransactionSchema
  import opened RuleCategorizer
  import opened Categorization
  import opened Normalizers
  import opened BankImport

  /** The store after a request, and the answer sent. */
  datatype Outcome<R> = Outcome(store: Store, response: R)

  /** Categorizing changes only category and reason, so the schema's verdict
      on a batch does not change. */
  lemma CategorizeAllKeepsAdmissible(txs: seq<Tx>, ai: AiOracle, sources: set<string>)
    ensures forall i :: 0 <= i < |txs| ==>
      (Admissible(CategorizeAll(txs, ai)[i], sources) <==> Admissible(txs[i], sources))
    ensures forall i :: 0 <= i < |txs| ==> Truthy(CategorizeAll(txs, ai)[i].category)
    ensures forall i :: 0 <= i < |txs| ==> CategorizeAll(txs, ai)[i].source == txs[i].source
  {
    CategorizeAllComplete(txs, ai);
    forall i | 0 <= i < |txs|
      ensures Admissible(CategorizeAll(txs, ai)[i], sources) <==> Admissible(txs[i], sources)
      ensures CategorizeAll(txs, ai)[i].source == txs[i].source
    {
      var c := CategorizeAll(txs, ai)[i];
      assert c.(category := txs[i].category, reason := txs[i].reason) == txs[i];
    }
  }

  // ---------------------------------------------------------------------
  // POST /transactions/import

  datatype ImportResponse =
    | AlreadyImported        // `{ imported: 0, message: "Transactions already imported..." }`
    | Imported(count: nat)   // `{ imported: docs.length, ... }`
    | ImportFailed(error: SchemaError)  // 500

  /** The records the import stores: fetched, then categorized in order. */
  function ImportRecords(env: NessieEnv, parseDate: DateParser, ai: AiOracle, now: Time): seq<Tx> {
    CategorizeAll(NessieTransactions(env, parseDate, now), ai)
  }

  /** What the import route does to the store and answers. */
  function Import(store: Store, user: UserId, env: NessieEnv, parseDate: DateParser, ai: AiOracle, now: Time): Outcome<ImportResponse> {
    if CountDocuments(store, user) > 0 then Outcome(store, AlreadyImported)
    else
      var records := ImportRecords(env, parseDate, ai, now);
      match InsertMany(store, user, records, now, SchemaSources)
      case Err(e) => Outcome(store, ImportFailed(e))
      case Ok(s) => Outcome(s, Imported(|records|))
  }

  /** The import handler: the duplicate check, the fetch, the in-place
      categorization pass and the bulk insert. */
  method ImportRoute(store: Store, user: UserId, env: NessieEnv, parseDate: DateParser, ai: AiOracle, now: Time)
    returns (store': Store, response: ImportResponse)
    ensures Outcome(store', response) == Import(store, user, env, parseDate, ai, now)
  {
    var existingCount := CountDocuments(store, user);
    if existingCount > 0 {
      return store, AlreadyImported;
    }
    var records := FetchNessieTransactions(env, parseDate, now);
    var a := new Tx[|records|](i requires 0 <= i < |records| => records[i]);
    assert a[..] == records;
    CategorizeArray(a, ai);
    match InsertMany(store, user, a[..], now, SchemaSources)
    case Err(e) =>
      store', response := store, ImportFailed(e);
    case Ok(s) =>
      store', response := s, Imported(a.Length);
  }

  /** The import runs at most once per user: a user who already owns a
      document gets `AlreadyImported` and an unchanged store, and a
      successful import stores at least one document, so any later import
      for the same user is refused. */
  lemma ImportAtMostOnce(store: Store, user: UserId, env: NessieEnv, parseDate: DateParser, ai: AiOracle, now: Time,
                         env': NessieEnv, parseDate': DateParser, ai': AiOracle, now': Time)
    ensures CountDocuments(store, user) > 0 ==> Import(store, user, env, parseDate, ai, now) == Outcome(store, AlreadyImported)
    ensures Import(store, user, env, parseDate, ai, now).response.Imported? ==>
      var s := Import(store, user, env, parseDate, ai, now).store;
      Import(s, user, env', parseDate', ai', now') == Outcome(s, AlreadyImported)
  {
    var o := Import(store, user, env, parseDate, ai, now);
    if o.response.Imported? {
      NessieTransactionsBankRecords(env, parseDate, now);
      var records := ImportRecords(env, parseDate, ai, now);
      assert o.store == InsertMany(store, user, records, now, SchemaSources).value;
      assert CountDocuments(o.store, user) == CountDocuments(store, user) + |records|;
    }
  }

  /** An import keeps the store valid and touches only the importing user's
      documents; on success the user owns exactly the imported documents, one
      per fetched record in order, each categorized and from the bank source.
      On failure nothing is written. */
  lemma ImportKeepsStoreValid(store: Store, user: UserId, env: NessieEnv, parseDate: DateParser, ai: AiOracle, now: Time)
    requires StoreValid(store, SchemaSources)
    ensures var o := Import(store, user, env, parseDate, ai, now);
      && StoreValid(o.store, SchemaSources)
      && (forall u :: u != user ==> Owned(o.store, u) == Owned(store, u))
      && (!o.response.Imported? ==> o.store == store)
      && (o.response.Imported? ==>
            && o.response.count == |NessieTransactions(env, parseDate, now)|
            && |Owned(o.store, user)| == o.response.count
            && forall i :: 0 <= i < o.response.count ==>
                 Owned(o.store, user)[i].source == "bank" && Truthy(Owned(o.store, user)[i].category))
  {
    var o := Import(store, user, env, parseDate, ai, now);
    if o.response.Imported? {
      var fetched := NessieTransactions(env, parseDate, now);
      var records := ImportRecords(env, parseDate, ai, now);
      NessieTransactionsBankRecords(env, parseDate, now);
      CategorizeAllKeepsAdmissible(fetched, ai, SchemaSources);
      InsertManyKeepsStoreValid(store, user, records, now, SchemaSources);
      var docs := CastAll(records, user, now, SchemaSources).value;
      assert Owned(store, user) == [];
      assert Owned(o.store, user) == docs;
      forall i | 0 <= i < |records|
        ensures docs[i].source == "bank" && Truthy(docs[i].category)
      {
        assert Cast(records[i], user, now, SchemaSources) == Ok(docs[i]);
      }
    }
  }

  /** Without an API key a new user's import stores the thirty mock
      transactions: all of them pass the schema. */
  lemma ImportWithoutKeyStoresMock(store: Store, user: UserId, env: NessieEnv, parseDate: DateParser, ai: AiOracle, now: Time)
    requires CountDocuments(store, user) == 0
    requires !Truthy(env.key)
    ensures Import(store, user, env, parseDate, ai, now).response == Imported(30)
    ensures CountDocuments(Import(store, user, env, parseDate, ai, now).store, user) == 30
  {
    NessieWithoutKeyAdmissible(env, parseDate, now);
    ImportOfAdmissible(store, user, NessieTransactions(env, parseDate, now), ai, now);
  }

  /** A new user's batch of records that all pass the schema is stored in
      full. */
  lemma ImportOfAdmissible(store: Store, user: UserId, fetched: seq<Tx>, ai: AiOracle, now: Time)
    requires CountDocuments(store, user) == 0
    requires forall i :: 0 <= i < |fetched| ==> Admissible(fetched[i], SchemaSources)
    ensures InsertMany(store, user, CategorizeAll(fetched, ai), now, SchemaSources).Ok?
    ensures CountDocuments(InsertMany(store, user, CategorizeAll(fetched, ai), now, SchemaSources).value, user) == |fetched|
  {
    CategorizeAllKeepsAdmissible(fetched, ai, SchemaSources);
  }

  // ---------------------------------------------------------------------
  // POST /transactions/upload

  /** The request body's `transactions` field: not an array, or the rows. */
  datatype UploadBody = NotAnArray | Rows(rows: seq<UploadRow>)

  datatype UploadResponse =
    | UploadBadRequest                  // 400 "transactions array required"
    | Uploaded(count: nat)              // `{ uploaded: docs.length }`
    | UploadFailed(error: SchemaError)  // 500

  /** What the upload route does to the store and answers. There is no
      duplicate check: the same rows uploaded twice are stored twice. */
  function Upload(store: Store, user: UserId, body: UploadBody, parseNum: NumberParser, parseDate: DateParser,
                  ai: AiOracle, now: Time): Outcome<UploadResponse> {
    match body
    case NotAnArray => Outcome(store, UploadBadRequest)
    case Rows(rows) =>
      var unified := CategorizeAll(UnifyUpload(rows, parseNum, parseDate, now), ai);
      match InsertMany(store, user, unified, now, SchemaSources)
      case Err(e) => Outcome(store, UploadFailed(e))
      case Ok(s) => Outcome(s, Uploaded(|unified|))
  }

  /** The upload handler: map every row, categorize in place, insert. */
  method UploadRoute(store: Store, user: UserId, body: UploadBody, parseNum: NumberParser, parseDate: DateParser,
                     ai: AiOracle, now: Time) returns (store': Store, response: UploadResponse)
    ensures Outcome(store', response) == Upload(store, user, body, parseNum, parseDate, ai, now)
  {
    if body.NotAnArray? {
      return store, UploadBadRequest;
    }
    var rows := body.rows;
    var unified := new Tx[|rows|](i requires 0 <= i < |rows| => FromUploadRow(rows[i], parseNum, parseDate, now));
    assert unified[..] == UnifyUpload(rows, parseNum, parseDate, now);
    CategorizeArray(unified, ai);
    match InsertMany(store, user, unified[..], now, SchemaSources)
    case Err(e) =>
      store', response := store, UploadFailed(e);
    case Ok(s) =>
      store', response := s, Uploaded(unified.Length);
  }

  /** A row the schema accepts once mapped: its date, when given, parses, and
      the description it ends up with is not blank. */
  predicate RowAccepted(t: UploadRow, parseDate: DateParser) {
    && (Truthy(t.date) ==> parseDate(t.date.value).Some?)
    && Trim(Pick(t.description, Pick(t.desc, "Transaction"))) != ""
  }

  /** An uploaded array is stored exactly when every row is accepted, and
      then all its rows are appended in order after what the user already
      had; a rejected request writes nothing. */
  lemma UploadStoresIffRowsAccepted(store: Store, user: UserId, rows: seq<UploadRow>, parseNum: NumberParser,
                                    parseDate: DateParser, ai: AiOracle, now: Time)
    ensures var o := Upload(store, user, Rows(rows), parseNum, parseDate, ai, now);
      && (o.response.Uploaded? <==> forall i :: 0 <= i < |rows| ==> RowAccepted(rows[i], parseDate))
      && (o.response.Uploaded? ==> o.response.count == |rows|)
      && (o.response.Uploaded? ==> CountDocuments(o.store, user) == CountDocuments(store, user) + |rows|)
      && (o.response.Uploaded? ==> Owned(o.store, user)[..CountDocuments(store, user)] == Owned(store, user))
      && (!o.response.Uploaded? ==> o.store == store)
  {
    var mapped := UnifyUpload(rows, parseNum, parseDate, now);
    var unified := CategorizeAll(mapped, ai);
    CategorizeAllKeepsAdmissible(mapped, ai, SchemaSources);
    forall i | 0 <= i < |rows|
      ensures Admissible(unified[i], SchemaSources) <==> RowAccepted(rows[i], parseDate)
    {
      assert mapped[i] == FromUploadRow(rows[i], parseNum, parseDate, now);
      FromUploadRowFields(rows[i], parseNum, parseDate, now);
    }
    var r := InsertMany(store, user, unified, now, SchemaSources);
    if r.Ok? {
      var prior := Owned(store, user);
      var docs := CastAll(unified, user, now, SchemaSources).value;
      assert Owned(r.value, user) == prior + docs;
      assert (prior + docs)[..|prior|] == prior;
    }
  }

  /** A request whose body has no array is refused and writes nothing. */
  lemma UploadRejectsNonArray(store: Store, user: UserId, parseNum: NumberParser, parseDate: DateParser, ai: AiOracle, now: Time)
    ensures Upload(store, user, NotAnArray, parseNum, parseDate, ai, now) == Outcome(store, UploadBadRequest)
  {
  }

  // ---------------------------------------------------------------------
  // POST /transactions/manual

  datatype ManualResponse =
    | ManualBadRequest                  // 400 "Date, description, amount, and type are required"
    | ManualAdded(doc: Doc)             // `{ success: true, transaction: doc, ... }`
    | ManualFailed(error: SchemaError)  // 500

  /** The transaction the manual handler builds and hands to `create`: a
      category the user gave is kept with the reason "User specified";
      otherwise the record goes through rule and AI classification. */
  function ManualTransaction(m: ManualInput, parseNum: NumberParser, parseDate: DateParser, reply: AiReply): (r: Option<Tx>)
    ensures r.Some? <==> ManualComplete(m)
    ensures r.Some? ==> Truthy(r.value.category) && r.value.source == "manual"
    ensures r.Some? && Truthy(m.category) ==> r.value.category == m.category && r.value.reason == Some("User specified")
    ensures r.Some? && !Truthy(m.category) ==>
      r.value.category == Some(Classify(Trim(m.description.value), reply).category) &&
      r.value.reason == Some(Classify(Trim(m.description.value), reply).reason)
    ensures r.Some? ==> r.value.(category := None, reason := None) == NormalizeManual(m, parseNum, parseDate).value.(category := None)
  {
    match NormalizeManual(m, parseNum, parseDate)
    case None => None
    case Some(tx) =>
      if Truthy(tx.category) then Some(tx.(reason := Some("User specified")))
      else Some(Categorize(tx, reply))
  }

  /** What the manual route does to the store and answers, under the
      `source` enum `sources`. */
  function Manual(store: Store, user: UserId, m: ManualInput, parseNum: NumberParser, parseDate: DateParser,
                  reply: AiReply, now: Time, sources: set<string>): Outcome<ManualResponse> {
    match ManualTransaction(m, parseNum, parseDate, reply)
    case None => Outcome(store, ManualBadRequest)
    case Some(tx) =>
      match Create(store, user, tx, now, sources)
      case Err(e) => Outcome(store, ManualFailed(e))
      case Ok(s) => Outcome(s, ManualAdded(Cast(tx, user, now, sources).value))
  }

  /** The manual handler: the required-field check, the record built field by
      field, then updated in place with its category and reason, then
      `create` under the `source` enum `sources`: `SchemaSources` as the
      schema is written, `IntendedSources` with "manual" added. */
  method ManualRoute(store: Store, user: UserId, m: ManualInput, parseNum: NumberParser, parseDate: DateParser,
                     reply: AiReply, now: Time, sources: set<string>) returns (store': Store, response: ManualResponse)
    ensures Outcome(store', response) == Manual(store, user, m, parseNum, parseDate, reply, now, sources)
  {
    if !Truthy(m.date) || !Truthy(m.description) || !Truthy(m.amount) || !Truthy(m.kind) {
      return store, ManualBadRequest;
    }
    var transaction := Tx(date := parseDate(m.date.value),
                          description := Trim(m.description.value),
                          amount := parseNum(m.amount.value),
                          kind := if Lower(m.kind.value) == "credit" then "credit" else "debit",
                          source := "manual",
                          category := if Truthy(m.category) then m.category else None,
                          reason := None,
                          raw := ManualRaw(m));
    assert NormalizeManual(m, parseNum, parseDate) == Some(transaction);
    if !Truthy(transaction.category) {
      // the same rule-then-AI step as one iteration of `categorizeArray`
      transaction := CategorizeEntry(transaction, reply);
    } else {
      transaction := transaction.(reason := Some("User specified"));
    }
    assert ManualTransaction(m, parseNum, parseDate, reply) == Some(transaction);
    match Create(store, user, transaction, now, sources)
    case Err(e) =>
      store', response := store, ManualFailed(e);
    case Ok(s) =>
      store', response := s, ManualAdded(Cast(transaction, user, now, sources).value);
  }

  /** As written, the manual route never stores anything: a request missing a
      required field is a 400, and every complete one is rejected by
      `create`, because "manual" is not in the schema's `source` enum. */
  lemma ManualNeverStored(store: Store, user: UserId, m: ManualInput, parseNum: NumberParser, parseDate: DateParser,
                          reply: AiReply, now: Time)
    ensures var o := Manual(store, user, m, parseNum, parseDate, reply, now, SchemaSources);
      && o.store == store
      && (o.response == ManualBadRequest <==> !ManualComplete(m))
      && (ManualComplete(m) ==> o.response.ManualFailed?)
  {
  }

  /** With "manual" in the `source` enum, a complete manual entry whose date
      and amount parse and whose description is not blank is stored, and
      the stored document gives back what the user entered: the date and
      amount as parsed, the trimmed description, the normalized type, the
      category the user gave, and the raw input. */
  lemma ManualIntendedRoundTrip(store: Store, user: UserId, m: ManualInput, parseNum: NumberParser, parseDate: DateParser,
                                reply: AiReply, now: Time)
    requires ManualComplete(m)
    requires parseDate(m.date.value).Some? && parseNum(m.amount.value).Some? && Trim(m.description.value) != ""
    ensures var o := Manual(store, user, m, parseNum, parseDate, reply, now, IntendedSources);
      && o.response.ManualAdded?
      && o.store == store[user := Owned(store, user) + [o.response.doc]]
      && o.response.doc.userId == user
      && Some(o.response.doc.date) == parseDate(m.date.value)
      && Some(o.response.doc.amount) == parseNum(m.amount.value)
      && o.response.doc.description == Trim(m.description.value)
      && (o.response.doc.kind == "credit" <==> Lower(m.kind.value) == "credit")
      && o.response.doc.source == "manual"
      && (Truthy(m.category) ==> o.response.doc.category == m.category)
      && o.response.doc.raw == ManualRaw(m)
      && o.response.doc.createdAt == now
  {
    var tx := ManualTransaction(m, parseNum, parseDate, reply).value;
    TrimIdempotent(m.description.value);
    assert Admissible(tx, IntendedSources);
  }
}

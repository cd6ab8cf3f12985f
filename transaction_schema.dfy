/** The stored Transaction document and its schema (required fields, the
    `type` and `source` enums, the trimmed description, the `createdAt`
    default), and the per-user document store the routes read and write. */
module TransactionSchema {
  import opened Wrappers
  import opened JsText
  import opened Records

  /** A document as the store holds it. */
  datatype Doc = Doc(
    userId: UserId,
    date: Time,
    description: string,
    amount: Cents,
    kind: string,
    source: string,
    category: Option<string>,
    reason: Option<string>,
    raw: Raw,
    createdAt: Time)

  datatype SchemaError =
    | DateInvalid
    | DescriptionRequired
    | AmountInvalid
    | TypeNotInEnum
    | SourceNotInEnum

  predicate TypeAllowed(kind: string) { kind == "debit" || kind == "credit" }

  /** The `source` enum as the schema declares it. */
  const SchemaSources: set<string> := {"bank", "csv"}

  /** The `source` enum the three acquisition paths need, "manual" included. */
  const IntendedSources: set<string> := {"bank", "csv", "manual"}

  /** What every stored document satisfies under the `source` enum `sources`.
      `category`, `reason` and `raw` are optional, so they are unconstrained;
      `amount` has no lower bound. */
  predicate Valid(d: Doc, sources: set<string>) {
    && TypeAllowed(d.kind)
    && d.source in sources
    && d.description != ""
    && Trim(d.description) == d.description
  }

  /** The schema's conditions on an unsaved transaction. */
  predicate Admissible(tx: Tx, sources: set<string>) {
    && tx.date.Some?
    && Trim(tx.description) != ""
    && tx.amount.Some?
    && TypeAllowed(tx.kind)
    && tx.source in sources
  }

  /** Casting and validating one transaction for `user` at time `now`: the
      description is trimmed before the required check, `createdAt` takes its
      default, and every other field is stored as given. */
  function Cast(tx: Tx, user: UserId, now: Time, sources: set<string>): (r: Result<Doc, SchemaError>)
    ensures r.Ok? <==> Admissible(tx, sources)
    ensures r.Ok? ==> Valid(r.value, sources)
    ensures r.Ok? ==> r.value == Doc(user, tx.date.value, Trim(tx.description), tx.amount.value,
                                     tx.kind, tx.source, tx.category, tx.reason, tx.raw, now)
  {
    var description := Trim(tx.description);
    if tx.date.None? then Err(DateInvalid)
    else if description == "" then Err(DescriptionRequired)
    else if tx.amount.None? then Err(AmountInvalid)
    else if !TypeAllowed(tx.kind) then Err(TypeNotInEnum)
    else if tx.source !in sources then Err(SourceNotInEnum)
    else
      TrimIdempotent(tx.description);
      Ok(Doc(user, tx.date.value, description, tx.amount.value, tx.kind, tx.source,
             tx.category, tx.reason, tx.raw, now))
  }

  // ---------------------------------------------------------------------
  // The store: the documents of each user, in insertion order

  type Store = map<UserId, seq<Doc>>

  /** `Transaction.find({ userId: user })`. */
  function Owned(store: Store, user: UserId): seq<Doc> {
    if user in store then store[user] else []
  }

  /** `Transaction.countDocuments({ userId: user })`. */
  function CountDocuments(store: Store, user: UserId): nat {
    |Owned(store, user)|
  }

  /** Each document is valid and is filed under its own owner. */
  predicate StoreValid(store: Store, sources: set<string>) {
    forall u, i :: u in store && 0 <= i < |store[u]| ==> Valid(store[u][i], sources) && store[u][i].userId == u
  }

  /** Casting a whole batch: every element or the first error. */
  function CastAll(txs: seq<Tx>, user: UserId, now: Time, sources: set<string>): (r: Result<seq<Doc>, SchemaError>)
    ensures r.Ok? <==> forall i :: 0 <= i < |txs| ==> Admissible(txs[i], sources)
    ensures r.Ok? ==> |r.value| == |txs|
    ensures r.Ok? ==> forall i :: 0 <= i < |txs| ==> Cast(txs[i], user, now, sources) == Ok(r.value[i])
  {
    if txs == [] then Ok([])
    else
      match Cast(txs[0], user, now, sources)
      case Err(e) => Err(e)
      case Ok(d) =>
        match CastAll(txs[1..], user, now, sources)
        case Err(e) =>
          assert !forall i :: 0 <= i < |txs[1..]| ==> Admissible(txs[1..][i], sources);
          Err(e)
        case Ok(ds) => Ok([d] + ds)
  }

  /** `Transaction.insertMany(docs)`: all documents are validated first; one
      invalid document rejects the batch and nothing is written. */
  function InsertMany(store: Store, user: UserId, txs: seq<Tx>, now: Time, sources: set<string>): (r: Result<Store, SchemaError>)
    ensures r.Ok? <==> forall i :: 0 <= i < |txs| ==> Admissible(txs[i], sources)
    ensures r.Ok? ==> r.value == store[user := Owned(store, user) + CastAll(txs, user, now, sources).value]
  {
    match CastAll(txs, user, now, sources)
    case Err(e) => Err(e)
    case Ok(docs) => Ok(store[user := Owned(store, user) + docs])
  }

  /** `Transaction.create(doc)`: validate one document and append it. */
  function Create(store: Store, user: UserId, tx: Tx, now: Time, sources: set<string>): (r: Result<Store, SchemaError>)
    ensures r.Ok? <==> Admissible(tx, sources)
    ensures r.Ok? ==> r.value == store[user := Owned(store, user) + [Cast(tx, user, now, sources).value]]
  {
    match Cast(tx, user, now, sources)
    case Err(e) => Err(e)
    case Ok(doc) => Ok(store[user := Owned(store, user) + [doc]])
  }

  /** The documents a successful cast produces are valid and belong to the
      inserting user. */
  lemma CastAllOwned(txs: seq<Tx>, user: UserId, now: Time, sources: set<string>)
    requires CastAll(txs, user, now, sources).Ok?
    ensures forall i :: 0 <= i < |txs| ==> Valid(CastAll(txs, user, now, sources).value[i], sources)
    ensures forall i :: 0 <= i < |txs| ==> CastAll(txs, user, now, sources).value[i].userId == user
  {
    var docs := CastAll(txs, user, now, sources).value;
    forall i | 0 <= i < |txs| ensures Valid(docs[i], sources) && docs[i].userId == user {
      assert Cast(txs[i], user, now, sources) == Ok(docs[i]);
    }
  }

  /** Replacing one user's documents by valid documents of that user keeps
      the store valid. */
  lemma PutKeepsStoreValid(store: Store, user: UserId, all: seq<Doc>, sources: set<string>)
    requires StoreValid(store, sources)
    requires forall i :: 0 <= i < |all| ==> Valid(all[i], sources) && all[i].userId == user
    ensures StoreValid(store[user := all], sources)
  {
    var s' := store[user := all];
    forall u, i | u in s' && 0 <= i < |s'[u]| ensures Valid(s'[u][i], sources) && s'[u][i].userId == u {
      if u != user {
        assert s'[u] == store[u];
      }
    }
  }

  /** Appending valid documents of a user to that user's valid documents. */
  lemma AppendOwned(prior: seq<Doc>, docs: seq<Doc>, user: UserId, sources: set<string>)
    requires forall i :: 0 <= i < |prior| ==> Valid(prior[i], sources) && prior[i].userId == user
    requires forall i :: 0 <= i < |docs| ==> Valid(docs[i], sources) && docs[i].userId == user
    ensures forall i :: 0 <= i < |prior + docs| ==> Valid((prior + docs)[i], sources) && (prior + docs)[i].userId == user
  {
    var all := prior + docs;
    forall i | 0 <= i < |all| ensures Valid(all[i], sources) && all[i].userId == user {
      if i < |prior| {
        assert all[i] == prior[i];
      } else {
        assert all[i] == docs[i - |prior|];
      }
    }
  }

  /** Inserting keeps the store valid, files the new documents under the
      inserting user, and leaves every other user's documents alone. */
  lemma InsertManyKeepsStoreValid(store: Store, user: UserId, txs: seq<Tx>, now: Time, sources: set<string>)
    requires StoreValid(store, sources)
    requires InsertMany(store, user, txs, now, sources).Ok?
    ensures StoreValid(InsertMany(store, user, txs, now, sources).value, sources)
    ensures forall u :: u != user ==> Owned(InsertMany(store, user, txs, now, sources).value, u) == Owned(store, u)
    ensures CountDocuments(InsertMany(store, user, txs, now, sources).value, user) == CountDocuments(store, user) + |txs|
  {
    var docs := CastAll(txs, user, now, sources).value;
    CastAllOwned(txs, user, now, sources);
    var prior := Owned(store, user);
    assert forall i :: 0 <= i < |prior| ==> Valid(prior[i], sources) && prior[i].userId == user;
    AppendOwned(prior, docs, user, sources);
    PutKeepsStoreValid(store, user, prior + docs, sources);
  }
}

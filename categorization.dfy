/** The categorization pass of the routes: `aiCategorize` (the generative
    model as an oracle, with the code's defaults) and `categorizeArray`, which
    fills in category and reason of every uncategorized transaction, rule
    first, AI second. */
module Categorization {
  import opened Wrappers
  import opened JsText
  import opened Records
  import opened RuleCategorizer

  /** What one call to the generative model yields: a failure (network error,
      a reply that is not JSON) or the parsed object, whose `category` and
      `reason` may be missing. A reply without text parses as `{}`. */
  datatype AiReply = AiFailed | AiParsed(category: Option<string>, reason: Option<string>)

  /** The model's reply to the call made for the transaction at each position
      of a batch. */
  type AiOracle = nat -> AiReply

  /** A category and the short reason for it. */
  datatype Label = Label(category: string, reason: string)

  /** `aiCategorize(tx)`: never fails outward. A failed call gives the
      fallback label; a parsed reply has each missing or empty field replaced
      by its own default. */
  function AiCategorize(reply: AiReply): (l: Label)
    ensures l.category != "" && l.reason != ""
    ensures reply.AiFailed? ==> l == Label("Uncategorized", "Fallback classification")
    ensures reply.AiParsed? ==> (l.category == "Uncategorized" <==> !Truthy(reply.category) || reply.category.value == "Uncategorized")
    ensures reply.AiParsed? && Truthy(reply.category) ==> l.category == reply.category.value
    ensures reply.AiParsed? && Truthy(reply.reason) ==> l.reason == reply.reason.value
    ensures reply.AiParsed? && !Truthy(reply.reason) ==> l.reason == "AI classification"
  {
    match reply
    case AiFailed => Label("Uncategorized", "Fallback classification")
    case AiParsed(category, reason) => Label(Pick(category, "Uncategorized"), Pick(reason, "AI classification"))
  }

  /** Rule first, AI second: the label an uncategorized transaction with this
      description receives. */
  function Classify(description: string, reply: AiReply): (l: Label)
    ensures l.category != "" && l.reason != ""
    ensures RuleCategorize(description).Some? ==> l == Label(RuleCategorize(description).value, "Rule-based match")
    ensures RuleCategorize(description).None? ==> l == AiCategorize(reply)
  {
    match RuleCategorize(description)
    case Some(c) =>
      RuleCategoryInTable(description);
      Label(c, "Rule-based match")
    case None => AiCategorize(reply)
  }

  /** One iteration of `categorizeArray`: a transaction with a category is
      left as it is; otherwise only its category and reason are set. */
  function Categorize(tx: Tx, reply: AiReply): (r: Tx)
    ensures Truthy(tx.category) ==> r == tx
    ensures !Truthy(tx.category) ==>
      r == tx.(category := Some(Classify(tx.description, reply).category),
               reason := Some(Classify(tx.description, reply).reason))
    ensures Truthy(r.category)
  {
    if Truthy(tx.category) then tx
    else
      var l := Classify(tx.description, reply);
      tx.(category := Some(l.category), reason := Some(l.reason))
  }

  /** What `categorizeArray` leaves in the array: element by element, in the
      same order. */
  function CategorizeAll(txs: seq<Tx>, ai: AiOracle): (r: seq<Tx>)
    ensures |r| == |txs|
  {
    seq(|txs|, i requires 0 <= i < |txs| => Categorize(txs[i], ai(i)))
  }

  /** `categorizeArray(transactions)`, updating the records in place. */
  method CategorizeArray(a: array<Tx>, ai: AiOracle)
    modifies a
    ensures a[..] == CategorizeAll(old(a[..]), ai)
  {
    ghost var before := a[..];
    for i := 0 to a.Length
      invariant a[..i] == CategorizeAll(before, ai)[..i]
      invariant a[i..] == before[i..]
    {
      a[i] := CategorizeEntry(a[i], ai(i));
      assert a[..i + 1] == a[..i] + [a[i]];
    }
    assert a[..] == a[..a.Length];
  }

  /** The body of the loop of `categorizeArray`, for one record. */
  method CategorizeEntry(tx: Tx, reply: AiReply) returns (r: Tx)
    ensures r == Categorize(tx, reply)
  {
    r := tx;
    if !Truthy(tx.category) {
      var rule := RuleCategorize(tx.description);
      if rule.Some? {
        r := tx.(category := rule, reason := Some("Rule-based match"));
      } else {
        var ai' := AiCategorize(reply);
        r := tx.(category := Some(ai'.category), reason := Some(ai'.reason));
      }
    }
  }

  /** After the pass every transaction has a non-empty category, and nothing
      but category and reason has changed; an already categorized one is
      untouched. */
  lemma {:induction false} CategorizeAllComplete(txs: seq<Tx>, ai: AiOracle)
    ensures forall i :: 0 <= i < |txs| ==> Truthy(CategorizeAll(txs, ai)[i].category)
    ensures forall i :: 0 <= i < |txs| ==>
      CategorizeAll(txs, ai)[i].(category := txs[i].category, reason := txs[i].reason) == txs[i]
    ensures forall i :: 0 <= i < |txs| && Truthy(txs[i].category) ==> CategorizeAll(txs, ai)[i] == txs[i]
  {
    forall i | 0 <= i < |txs|
      ensures Truthy(CategorizeAll(txs, ai)[i].category)
      ensures CategorizeAll(txs, ai)[i].(category := txs[i].category, reason := txs[i].reason) == txs[i]
      ensures Truthy(txs[i].category) ==> CategorizeAll(txs, ai)[i] == txs[i]
    {
      assert CategorizeAll(txs, ai)[i] == Categorize(txs[i], ai(i));
    }
  }

  /** On a rule hit the reason is exactly "Rule-based match" and the reply of
      the model plays no part; on a miss the label is the model's. */
  lemma RuleBeforeAi(txs: seq<Tx>, ai: AiOracle, ai': AiOracle, i: nat)
    requires i < |txs| && !Truthy(txs[i].category)
    ensures RuleCategorize(txs[i].description).Some? ==>
      CategorizeAll(txs, ai)[i].reason == Some("Rule-based match") && CategorizeAll(txs, ai)[i] == CategorizeAll(txs, ai')[i]
    ensures RuleCategorize(txs[i].description).None? ==>
      CategorizeAll(txs, ai)[i].category == Some(AiCategorize(ai(i)).category) &&
      CategorizeAll(txs, ai)[i].reason == Some(AiCategorize(ai(i)).reason)
  {
    assert CategorizeAll(txs, ai)[i] == Categorize(txs[i], ai(i));
    assert CategorizeAll(txs, ai')[i] == Categorize(txs[i], ai'(i));
  }

  /** A second pass changes nothing, whatever the model would answer. */
  lemma CategorizeAllIdempotent(txs: seq<Tx>, ai: AiOracle, ai': AiOracle)
    ensures CategorizeAll(CategorizeAll(txs, ai), ai') == CategorizeAll(txs, ai)
  {
    var once := CategorizeAll(txs, ai);
    CategorizeAllComplete(txs, ai);
    assert forall i :: 0 <= i < |once| ==> CategorizeAll(once, ai')[i] == Categorize(once[i], ai'(i));
  }
}

/** The confidence-gated categorization service: one generative-model call
    per stored transaction (the replies are parameters), a fixed fallback
    answer when the call fails, and a batch pass that keeps each transaction
    and adds the model's category, reason and confidence, taking the model's
    category as final only above a confidence of 0.7. */
module GeminiBatch {
  import opened Wrappers
  import opened TransactionSchema

  /** What one model call yields: no candidates, a failure (network, missing
      parts, text that is not JSON), the JSON literal `null`, or an object
      whose fields may be absent. */
  datatype GeminiReply =
    | NoCandidates
    | CallFailed
    | ParsedNull
    | ParsedObject(category: Option<string>, reason: Option<string>, confidence: Option<real>)

  /** The replies, by position in the batch. */
  type GeminiOracle = nat -> GeminiReply

  /** What `categorizeTransaction` returns: `null`, or an object. */
  datatype Analysis =
    | NullAnalysis
    | Analysis(category: Option<string>, reason: Option<string>, confidence: Option<real>)

  const FallbackAnalysis: Analysis := Analysis(Some("Other"), Some("Unable to categorize automatically"), Some(0.1))

  /** `categorizeTransaction(...)`: the parsed reply, or the fallback answer
      when there is no candidate or anything in the call throws. */
  function CategorizeTransaction(reply: GeminiReply): (a: Analysis)
    ensures reply.NoCandidates? || reply.CallFailed? ==> a == FallbackAnalysis
    ensures reply.ParsedNull? <==> a.NullAnalysis?
    ensures reply.ParsedObject? ==> a == Analysis(reply.category, reply.reason, reply.confidence)
  {
    match reply
    case NoCandidates => FallbackAnalysis
    case CallFailed => FallbackAnalysis
    case ParsedNull => NullAnalysis
    case ParsedObject(c, r, k) => Analysis(c, r, k)
  }

  /** `{ ...transaction, ai_category, ai_reason, ai_confidence, final_category }`:
      the transaction kept whole, and the four added fields. */
  datatype Enriched = Enriched(
    original: Doc,
    aiCategory: Option<string>,
    aiReason: Option<string>,
    aiConfidence: Option<real>,
    finalCategory: Option<string>)

  /** `analysis.confidence > 0.7`; an absent confidence compares false. */
  predicate Confident(confidence: Option<real>) {
    confidence.Some? && confidence.value > 0.7
  }

  /** The element pushed for one transaction. Reading a field of a `null`
      analysis throws, and the batch's own `catch` pushes the failure
      marker instead. */
  function EnrichOne(t: Doc, reply: GeminiReply): Enriched {
    match CategorizeTransaction(reply)
    case NullAnalysis => Enriched(t, Some("Other"), Some("Categorization failed"), Some(0.1), t.category)
    case Analysis(c, r, k) => Enriched(t, c, r, k, if Confident(k) then c else t.category)
  }

  /** The array the batch returns. */
  function EnrichAll(transactions: seq<Doc>, replies: GeminiOracle): (r: seq<Enriched>)
    ensures |r| == |transactions|
  {
    seq(|transactions|, i requires 0 <= i < |transactions| => EnrichOne(transactions[i], replies(i)))
  }

  /** `categorizeTransactionsBatch(transactions)`: one call per transaction,
      in order, each result pushed onto the output array. */
  method CategorizeTransactionsBatch(transactions: seq<Doc>, replies: GeminiOracle) returns (categorized: seq<Enriched>)
    ensures categorized == EnrichAll(transactions, replies)
  {
    categorized := [];
    for i := 0 to |transactions|
      invariant |categorized| == i
      invariant forall j :: 0 <= j < i ==> categorized[j] == EnrichOne(transactions[j], replies(j))
    {
      var transaction := transactions[i];
      var analysis := CategorizeTransaction(replies(i));
      if analysis.NullAnalysis? {
        categorized := categorized + [Enriched(transaction, Some("Other"), Some("Categorization failed"), Some(0.1), transaction.category)];
      } else {
        var finalCategory := if Confident(analysis.confidence) then analysis.category else transaction.category;
        categorized := categorized + [Enriched(transaction, analysis.category, analysis.reason, analysis.confidence, finalCategory)];
      }
    }
  }

  /** One output per input, in input order, each keeping its transaction
      and reporting the analysis of its own reply (or the failure marker for
      a `null` analysis); the final category is the model's exactly when its
      confidence is above 0.7, and the transaction's own category otherwise. */
  lemma EnrichAllGate(transactions: seq<Doc>, replies: GeminiOracle)
    ensures forall i :: 0 <= i < |transactions| ==> EnrichAll(transactions, replies)[i].original == transactions[i]
    ensures forall i :: 0 <= i < |transactions| && !replies(i).ParsedNull? ==>
      var a := CategorizeTransaction(replies(i));
      EnrichAll(transactions, replies)[i].aiCategory == a.category &&
      EnrichAll(transactions, replies)[i].aiReason == a.reason &&
      EnrichAll(transactions, replies)[i].aiConfidence == a.confidence
    ensures forall i :: 0 <= i < |transactions| && replies(i).ParsedNull? ==>
      EnrichAll(transactions, replies)[i].aiCategory == Some("Other") &&
      EnrichAll(transactions, replies)[i].aiReason == Some("Categorization failed") &&
      EnrichAll(transactions, replies)[i].aiConfidence == Some(0.1)
    ensures forall i :: 0 <= i < |transactions| ==>
      Confident(EnrichAll(transactions, replies)[i].aiConfidence) ==>
        EnrichAll(transactions, replies)[i].finalCategory == EnrichAll(transactions, replies)[i].aiCategory
    ensures forall i :: 0 <= i < |transactions| ==>
      !Confident(EnrichAll(transactions, replies)[i].aiConfidence) ==>
        EnrichAll(transactions, replies)[i].finalCategory == transactions[i].category
  {
    forall i | 0 <= i < |transactions|
      ensures EnrichAll(transactions, replies)[i] == EnrichOne(transactions[i], replies(i))
    {
    }
  }

  /** A failed call, and a `null` reply, never override the transaction's
      category: the marker confidence 0.1 is below the gate. A failed call
      reports "Other" with the fallback reason; a `null` reply reports
      "Other" with the reason "Categorization failed". */
  lemma FailuresKeepCategory(t: Doc, reply: GeminiReply)
    requires !reply.ParsedObject?
    ensures EnrichOne(t, reply).finalCategory == t.category
    ensures EnrichOne(t, reply).aiCategory == Some("Other") && EnrichOne(t, reply).aiConfidence == Some(0.1)
    ensures reply.ParsedNull? ==> EnrichOne(t, reply).aiReason == Some("Categorization failed")
    ensures !reply.ParsedNull? ==> EnrichOne(t, reply).aiReason == Some("Unable to categorize automatically")
  {
  }
}

/** The chart-recommendation service: the data summary built from a list of
    transactions (count, date range, absolute totals per category, sign
    counts, average, top five categories), the default pie-chart
    recommendation drawn from it, and the fall back to that default whenever
    the generative-model call fails. */
module ChartAnalysis {
  import opened Wrappers
  import opened JsText
  import opened Records
  import opened Buckets

  /** The fields of a transaction the summary reads. `date` is `None` for an
      Invalid Date (a `NaN` time). */
  datatype ChartItem = ChartItem(finalCategory: Option<string>, category: Option<string>, amount: Cents, date: Option<Time>)

  /** `dateRange.start` / `dateRange.end`: `null` for no transactions, `NaN`
      when a date is invalid, otherwise an instant. */
  datatype RangeEnd = Null | NotANumber | Instant(t: Time)

  datatype DataSummary = DataSummary(
    totalTransactions: nat,
    start: RangeEnd,
    end: RangeEnd,
    categories: Totals<string>,
    totalAmount: int,
    positiveTransactions: nat,
    negativeTransactions: nat,
    averageAmount: real,
    topCategories: Totals<string>)

  function Abs(x: int): (r: nat)
    ensures r == x || r == -x
  {
    if x < 0 then -x else x
  }

  /** `transaction.final_category || transaction.category || 'Other'`. */
  function ChartKey(t: ChartItem): string {
    Pick(t.finalCategory, Pick(t.category, "Other"))
  }

  // ---------------------------------------------------------------------
  // The date range

  predicate AllDated(ts: seq<ChartItem>) {
    forall i :: 0 <= i < |ts| ==> ts[i].date.Some?
  }

  /** `Math.min(...dates)` over a non-empty list: `None` for `NaN`. */
  function EarliestDate(ts: seq<ChartItem>): (r: Option<Time>)
    requires |ts| > 0
    ensures r.Some? <==> AllDated(ts)
    ensures r.Some? ==> forall i :: 0 <= i < |ts| ==> r.value <= ts[i].date.value
    ensures r.Some? ==> exists i :: 0 <= i < |ts| && ts[i].date == r
  {
    if |ts| == 1 then ts[0].date
    else
      var rest := EarliestDate(ts[1..]);
      assert AllDated(ts) <==> ts[0].date.Some? && AllDated(ts[1..]) by {
        assert forall i :: 1 <= i < |ts| ==> ts[i] == ts[1..][i - 1];
      }
      if ts[0].date.None? || rest.None? then None
      else
        var j :| 0 <= j < |ts[1..]| && ts[1..][j].date == rest;
        assert ts[j + 1].date == rest;
        Some(if ts[0].date.value <= rest.value then ts[0].date.value else rest.value)
  }

  /** `Math.max(...dates)` over a non-empty list: `None` for `NaN`. */
  function LatestDate(ts: seq<ChartItem>): (r: Option<Time>)
    requires |ts| > 0
    ensures r.Some? <==> AllDated(ts)
    ensures r.Some? ==> forall i :: 0 <= i < |ts| ==> ts[i].date.value <= r.value
    ensures r.Some? ==> exists i :: 0 <= i < |ts| && ts[i].date == r
  {
    if |ts| == 1 then ts[0].date
    else
      var rest := LatestDate(ts[1..]);
      assert AllDated(ts) <==> ts[0].date.Some? && AllDated(ts[1..]) by {
        assert forall i :: 1 <= i < |ts| ==> ts[i] == ts[1..][i - 1];
      }
      if ts[0].date.None? || rest.None? then None
      else
        var j :| 0 <= j < |ts[1..]| && ts[1..][j].date == rest;
        assert ts[j + 1].date == rest;
        Some(if ts[0].date.value >= rest.value then ts[0].date.value else rest.value)
  }

  function RangeStart(ts: seq<ChartItem>): RangeEnd {
    if |ts| == 0 then Null
    else match EarliestDate(ts)
      case None => NotANumber
      case Some(t) => Instant(t)
  }

  function RangeEnd_(ts: seq<ChartItem>): RangeEnd {
    if |ts| == 0 then Null
    else match LatestDate(ts)
      case None => NotANumber
      case Some(t) => Instant(t)
  }

  // ---------------------------------------------------------------------
  // The forEach

  /** The part of the summary the `forEach` updates. */
  datatype Tally = Tally(categories: Totals<string>, totalAmount: int, positive: nat, negative: nat)

  function TallyStep(s: Tally, t: ChartItem): Tally {
    Tally(Bump(s.categories, ChartKey(t), Abs(t.amount)),
          s.totalAmount + Abs(t.amount),
          if t.amount > 0 then s.positive + 1 else s.positive,
          if t.amount > 0 then s.negative else s.negative + 1)
  }

  function TallyAll(ts: seq<ChartItem>): Tally {
    if ts == [] then Tally([], 0, 0, 0) else TallyStep(TallyAll(ts[..|ts| - 1]), ts[|ts| - 1])
  }

  /** The sum of `|amount|` over the list. */
  function SumAbs(ts: seq<ChartItem>): nat {
    if ts == [] then 0 else Abs(ts[0].amount) + SumAbs(ts[1..])
  }

  /** How many items have a positive amount. */
  function CountPositive(ts: seq<ChartItem>): nat {
    if ts == [] then 0 else (if ts[0].amount > 0 then 1 else 0) + CountPositive(ts[1..])
  }

  lemma {:induction false} SumAbsAppend(ts: seq<ChartItem>, t: ChartItem)
    ensures SumAbs(ts + [t]) == SumAbs(ts) + Abs(t.amount)
    ensures CountPositive(ts + [t]) == CountPositive(ts) + (if t.amount > 0 then 1 else 0)
  {
    if ts != [] {
      assert (ts + [t])[1..] == ts[1..] + [t];
      SumAbsAppend(ts[1..], t);
    }
  }

  /** Every amount is counted in exactly one bucket with its absolute value,
      so the buckets add up to `totalAmount`, which is the sum of the
      absolute amounts; the positive and the other (zero included) counts
      add up to the number of transactions. */
  lemma TallyAllMeaning(ts: seq<ChartItem>)
    ensures TallyAll(ts).totalAmount == SumAbs(ts)
    ensures SumValues(TallyAll(ts).categories) == TallyAll(ts).totalAmount
    ensures DistinctKeys(TallyAll(ts).categories)
    ensures TallyAll(ts).positive == CountPositive(ts)
    ensures TallyAll(ts).positive + TallyAll(ts).negative == |ts|
    ensures forall k :: Lookup(TallyAll(ts).categories, k) >= 0
  {
    TallyAllCounts(ts);
    TallyAllBuckets(ts);
  }

  lemma {:induction false} TallyAllCounts(ts: seq<ChartItem>)
    ensures TallyAll(ts).totalAmount == SumAbs(ts)
    ensures TallyAll(ts).positive == CountPositive(ts)
    ensures TallyAll(ts).positive + TallyAll(ts).negative == |ts|
  {
    if ts != [] {
      var prefix := ts[..|ts| - 1];
      TallyAllCounts(prefix);
      assert ts == prefix + [ts[|ts| - 1]];
      SumAbsAppend(prefix, ts[|ts| - 1]);
    }
  }

  lemma {:induction false} TallyAllBuckets(ts: seq<ChartItem>)
    ensures SumValues(TallyAll(ts).categories) == TallyAll(ts).totalAmount
    ensures DistinctKeys(TallyAll(ts).categories)
    ensures forall k :: Lookup(TallyAll(ts).categories, k) >= 0
  {
    if ts != [] {
      TallyAllBuckets(ts[..|ts| - 1]);
    }
  }

  /** `summary.totalAmount / transactions.length || 0`. */
  function Average(total: int, n: nat): (r: real)
    ensures n == 0 ==> r == 0.0
    ensures n > 0 ==> r * (n as real) == total as real
  {
    if n == 0 then 0.0 else (total as real) / (n as real)
  }

  /** The summary `prepareDataSummary` returns. */
  function Summary(ts: seq<ChartItem>): DataSummary {
    var tally := TallyAll(ts);
    DataSummary(|ts|, RangeStart(ts), RangeEnd_(ts), tally.categories, tally.totalAmount,
                tally.positive, tally.negative, Average(tally.totalAmount, |ts|), Top5(tally.categories))
  }

  /** `prepareDataSummary(transactions)`: the date range first, then one pass
      that updates the buckets, the total and the two counters. */
  method PrepareDataSummary(transactions: seq<ChartItem>) returns (summary: DataSummary)
    ensures summary == Summary(transactions)
  {
    var start := if |transactions| > 0 then (if EarliestDate(transactions).Some? then Instant(EarliestDate(transactions).value) else NotANumber) else Null;
    var end := if |transactions| > 0 then (if LatestDate(transactions).Some? then Instant(LatestDate(transactions).value) else NotANumber) else Null;
    summary := DataSummary(|transactions|, start, end, [], 0, 0, 0, 0.0, []);
    for i := 0 to |transactions|
      invariant Tally(summary.categories, summary.totalAmount, summary.positiveTransactions, summary.negativeTransactions)
                == TallyAll(transactions[..i])
      invariant summary.totalTransactions == |transactions| && summary.start == start && summary.end == end
      invariant summary.averageAmount == 0.0 && summary.topCategories == []
    {
      var transaction := transactions[i];
      var category := Pick(transaction.finalCategory, Pick(transaction.category, "Other"));
      summary := summary.(categories := Bump(summary.categories, category, Abs(transaction.amount)));
      summary := summary.(totalAmount := summary.totalAmount + Abs(transaction.amount));
      if transaction.amount > 0 {
        summary := summary.(positiveTransactions := summary.positiveTransactions + 1);
      } else {
        summary := summary.(negativeTransactions := summary.negativeTransactions + 1);
      }
      assert transactions[..i + 1][..i] == transactions[..i];
    }
    assert transactions[..|transactions|] == transactions;
    summary := summary.(averageAmount := Average(summary.totalAmount, |transactions|));
    summary := summary.(topCategories := Top5(summary.categories));
  }

  /** The count and the date range: no range for no transactions, `NaN`
      when a date is invalid, otherwise the earliest and the latest dates. */
  lemma SummaryRange(ts: seq<ChartItem>)
    ensures Summary(ts).totalTransactions == |ts|
    ensures |ts| == 0 <==> Summary(ts).start == Null
    ensures |ts| == 0 <==> Summary(ts).end == Null
    ensures |ts| > 0 ==> (Summary(ts).start == NotANumber <==> !AllDated(ts))
    ensures |ts| > 0 ==> (Summary(ts).end == NotANumber <==> !AllDated(ts))
    ensures |ts| > 0 && AllDated(ts) ==>
      Summary(ts).start.Instant? && Summary(ts).end.Instant? &&
      forall i :: 0 <= i < |ts| ==> Summary(ts).start.t <= ts[i].date.value <= Summary(ts).end.t
  {
  }

  /** The amounts: bucket totals that add up to the sum of absolute amounts,
      and sign counts that add up to the length. */
  lemma SummaryAmounts(ts: seq<ChartItem>)
    ensures Summary(ts).totalAmount == SumAbs(ts)
    ensures SumValues(Summary(ts).categories) == SumAbs(ts)
    ensures Summary(ts).positiveTransactions == CountPositive(ts)
    ensures Summary(ts).positiveTransactions + Summary(ts).negativeTransactions == |ts|
  {
    TallyAllMeaning(ts);
  }

  /** The average is the mean absolute amount (see `Average`: 0 for no
      transactions, otherwise times the count it gives the sum). */
  lemma SummaryAverage(ts: seq<ChartItem>)
    ensures Summary(ts).averageAmount == Average(SumAbs(ts), |ts|)
  {
    TallyAllMeaning(ts);
  }

  /** At most five top buckets, largest first, each one of the buckets; the
      ones left out are no larger than the fifth, and among equal totals the
      first-seen buckets are kept. */
  lemma SummaryTop(ts: seq<ChartItem>)
    ensures |Summary(ts).topCategories| <= 5
    ensures SortedDesc(Summary(ts).topCategories)
    ensures forall i :: 0 <= i < |Summary(ts).topCategories| ==> Summary(ts).topCategories[i] in Summary(ts).categories
    ensures Summary(ts).topCategories == Top5(Summary(ts).categories)
    ensures |Summary(ts).categories| > 5 ==>
              forall e :: e in Summary(ts).categories && e !in Summary(ts).topCategories ==> e.1 <= Summary(ts).topCategories[4].1
    ensures forall v :: WithTotal(Summary(ts).topCategories, v) <= WithTotal(Summary(ts).categories, v)
  {
    Top5Properties(TallyAll(ts).categories);
  }

  // ---------------------------------------------------------------------
  // The recommendation

  /** One `{ name, value }` point of the chart data. */
  datatype ChartPoint = ChartPoint(name: string, value: int)

  datatype ChartRecommendation = ChartRecommendation(
    recommendedChart: string,
    data: seq<ChartPoint>,
    dataKey: string,
    nameKey: string,
    colors: seq<string>,
    explanation: string,
    insights: seq<string>)

  const PieColors: seq<string> := ["#1E88E5", "#FF8F00", "#10B981", "#EF4444", "#6366F1"]

  const PieExplanation: string :=
    "A pie chart is recommended to show the distribution of spending across different categories, making it easy to identify where most of your money is going."

  const PieInsights: seq<string> :=
    ["This visualization helps identify your largest expense categories",
     "You can quickly see spending patterns and areas for potential savings"]

  /** A pie chart of the given ranked buckets, one `{ name, value }` point
      per bucket, in order. */
  function Pie(top: Totals<string>): (r: ChartRecommendation)
    ensures r.recommendedChart == "pie" && r.dataKey == "value" && r.nameKey == "name"
    ensures r.colors == PieColors
    ensures |r.data| == |top|
    ensures forall i :: 0 <= i < |r.data| ==> r.data[i] == ChartPoint(top[i].0, top[i].1)
  {
    ChartRecommendation("pie", seq(|top|, i requires 0 <= i < |top| => ChartPoint(top[i].0, top[i].1)),
                        "value", "name", PieColors, PieExplanation, PieInsights)
  }

  /** `getDefaultChartRecommendation(transactions)`: a pie of the summary's
      top categories. */
  function DefaultChartRecommendation(ts: seq<ChartItem>): ChartRecommendation {
    Pie(Summary(ts).topCategories)
  }

  /** The reply of the chart model: none, a failure (the call or the JSON
      parse throws), or the parsed recommendation. */
  datatype ChartReply = NoChartCandidates | ChartCallFailed | ChartParsed(recommendation: ChartRecommendation)

  /** `analyzeDataForChart(transactions)`: the model's recommendation, or the
      default one on any failure. */
  function AnalyzeDataForChart(ts: seq<ChartItem>, reply: ChartReply): (r: ChartRecommendation)
    ensures reply.ChartParsed? ==> r == reply.recommendation
    ensures !reply.ChartParsed? ==> r == DefaultChartRecommendation(ts)
  {
    match reply
    case ChartParsed(rec) => rec
    case _ => DefaultChartRecommendation(ts)
  }

  /** The default chart's slices are the summary's top categories: at most
      five, largest first, none negative. */
  lemma DefaultChartSlices(ts: seq<ChartItem>)
    ensures |DefaultChartRecommendation(ts).data| <= 5
    ensures forall i, j :: 0 <= i < j < |DefaultChartRecommendation(ts).data| ==>
      DefaultChartRecommendation(ts).data[i].value >= DefaultChartRecommendation(ts).data[j].value
    ensures forall i :: 0 <= i < |DefaultChartRecommendation(ts).data| ==> DefaultChartRecommendation(ts).data[i].value >= 0
  {
    SummaryTop(ts);
    TallyAllMeaning(ts);
    var top := Summary(ts).topCategories;
    var cats := Summary(ts).categories;
    forall i | 0 <= i < |top| ensures top[i].1 >= 0 {
      assert top[i] in cats;
      EntryIsLookup(cats, top[i]);
    }
  }

  /** In an object with distinct keys, an entry's total is what `Lookup`
      finds under its key. */
  lemma {:induction false} EntryIsLookup(b: Totals<string>, e: Entry<string>)
    requires DistinctKeys(b) && e in b
    ensures Lookup(b, e.0) == e.1
  {
    if b[0] != e {
      assert e in b[1..];
      EntryIsLookup(b[1..], e);
      KeyOfEntry(b[1..], e);
    }
  }

  /** The key of an entry is one of the object's keys. */
  lemma {:induction false} KeyOfEntry(b: Totals<string>, e: Entry<string>)
    requires e in b
    ensures e.0 in Keys(b)
  {
    if b[0] != e {
      assert e in b[1..];
      KeyOfEntry(b[1..], e);
    }
  }
}

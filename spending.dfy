/** The aggregation of the spending-analysis route: a pass over the user's
    stored documents (at most 500) that adds credits to income and debits to
    expenses, to a per-category total and to a per-month total, and the
    figures derived from them. */
module Spending {
  import opened Wrappers
  import opened JsText
  import opened Records
  import opened TransactionSchema
  import opened Buckets

  /** The running state of the `forEach`. */
  datatype Aggregate = Aggregate(
    totalIncome: Cents,
    totalExpenses: Cents,
    categoryTotals: Totals<string>,
    monthlySpending: Totals<MonthKey>)

  /** `t.category || "Uncategorized"`. */
  function CategoryKey(d: Doc): string {
    Pick(d.category, "Uncategorized")
  }

  predicate IsCredit(d: Doc) {
    d.kind == "credit"
  }

  /** One iteration of the `forEach`. */
  function Step(a: Aggregate, d: Doc): Aggregate {
    if IsCredit(d) then a.(totalIncome := a.totalIncome + d.amount)
    else
      a.(totalExpenses := a.totalExpenses + d.amount,
         categoryTotals := Bump(a.categoryTotals, CategoryKey(d), d.amount),
         monthlySpending := Bump(a.monthlySpending, MonthOf(d.date), d.amount))
  }

  /** The state after the whole list. */
  function AggregateAll(docs: seq<Doc>): Aggregate {
    if docs == [] then Aggregate(0, 0, [], [])
    else Step(AggregateAll(docs[..|docs| - 1]), docs[|docs| - 1])
  }

  /** The aggregation loop of the spending-analysis handler. */
  method AggregateSpending(list: seq<Doc>) returns (a: Aggregate)
    ensures a == AggregateAll(list)
  {
    var categoryTotals: Totals<string> := [];
    var monthlySpending: Totals<MonthKey> := [];
    var totalIncome := 0;
    var totalExpenses := 0;
    for i := 0 to |list|
      invariant Aggregate(totalIncome, totalExpenses, categoryTotals, monthlySpending) == AggregateAll(list[..i])
    {
      var t := list[i];
      var category := Pick(t.category, "Uncategorized");
      var month := MonthOf(t.date);
      if t.kind == "credit" {
        totalIncome := totalIncome + t.amount;
      } else {
        totalExpenses := totalExpenses + t.amount;
        categoryTotals := Bump(categoryTotals, category, t.amount);
        monthlySpending := Bump(monthlySpending, month, t.amount);
      }
      assert list[..i + 1][..i] == list[..i];
    }
    assert list[..|list|] == list;
    a := Aggregate(totalIncome, totalExpenses, categoryTotals, monthlySpending);
  }

  // ---------------------------------------------------------------------
  // Reference definitions

  /** Which documents a reference sum takes. */
  datatype Selection = Credits | Debits | DebitsIn(category: string) | DebitsDuring(month: MonthKey)

  predicate Selects(sel: Selection, d: Doc) {
    match sel
    case Credits => IsCredit(d)
    case Debits => !IsCredit(d)
    case DebitsIn(c) => !IsCredit(d) && CategoryKey(d) == c
    case DebitsDuring(m) => !IsCredit(d) && MonthOf(d.date) == m
  }

  /** The sum of the amounts of the selected documents. */
  function SumWhere(docs: seq<Doc>, sel: Selection): int {
    if docs == [] then 0
    else SumWhere(docs[..|docs| - 1], sel) + (if Selects(sel, docs[|docs| - 1]) then docs[|docs| - 1].amount else 0)
  }

  /** The category keys of the debits. */
  function DebitCategories(docs: seq<Doc>): set<string> {
    set i | 0 <= i < |docs| && !IsCredit(docs[i]) :: CategoryKey(docs[i])
  }

  /** The months of the debits. */
  function DebitMonths(docs: seq<Doc>): set<MonthKey> {
    set i | 0 <= i < |docs| && !IsCredit(docs[i]) :: MonthOf(docs[i].date)
  }

  /** Credits count only as income, everything else only as expense, each
      with its sign; a category (month) total is the sum of exactly the
      debits of that category (month). */
  lemma {:induction false} AggregateAllSums(docs: seq<Doc>)
    ensures AggregateAll(docs).totalIncome == SumWhere(docs, Credits)
    ensures AggregateAll(docs).totalExpenses == SumWhere(docs, Debits)
    ensures forall c :: Lookup(AggregateAll(docs).categoryTotals, c) == SumWhere(docs, DebitsIn(c))
    ensures forall m :: Lookup(AggregateAll(docs).monthlySpending, m) == SumWhere(docs, DebitsDuring(m))
  {
    if docs != [] {
      AggregateAllSums(docs[..|docs| - 1]);
    }
  }

  /** The category (month) object has one entry for each category (month)
      some debit has, and no other. */
  lemma AggregateAllKeys(docs: seq<Doc>)
    ensures Keys(AggregateAll(docs).categoryTotals) == DebitCategories(docs)
    ensures Keys(AggregateAll(docs).monthlySpending) == DebitMonths(docs)
  {
    CategoryKeys(docs);
    MonthKeys(docs);
  }

  lemma {:induction false} CategoryKeys(docs: seq<Doc>)
    ensures Keys(AggregateAll(docs).categoryTotals) == DebitCategories(docs)
  {
    if docs != [] {
      var prefix := docs[..|docs| - 1];
      var last := docs[|docs| - 1];
      CategoryKeys(prefix);
      assert forall i :: 0 <= i < |prefix| ==> prefix[i] == docs[i];
      if IsCredit(last) {
        assert DebitCategories(docs) == DebitCategories(prefix);
      } else {
        assert DebitCategories(docs) == DebitCategories(prefix) + {CategoryKey(last)};
      }
    }
  }

  lemma {:induction false} MonthKeys(docs: seq<Doc>)
    ensures Keys(AggregateAll(docs).monthlySpending) == DebitMonths(docs)
  {
    if docs != [] {
      var prefix := docs[..|docs| - 1];
      var last := docs[|docs| - 1];
      MonthKeys(prefix);
      assert forall i :: 0 <= i < |prefix| ==> prefix[i] == docs[i];
      if IsCredit(last) {
        assert DebitMonths(docs) == DebitMonths(prefix);
      } else {
        assert DebitMonths(docs) == DebitMonths(prefix) + {MonthOf(last.date)};
      }
    }
  }

  /** Each object's keys are distinct and its totals add up to the
      expenses. */
  lemma {:induction false} AggregateAllTotals(docs: seq<Doc>)
    ensures SumValues(AggregateAll(docs).categoryTotals) == AggregateAll(docs).totalExpenses
    ensures SumValues(AggregateAll(docs).monthlySpending) == AggregateAll(docs).totalExpenses
    ensures DistinctKeys(AggregateAll(docs).categoryTotals) && DistinctKeys(AggregateAll(docs).monthlySpending)
  {
    if docs != [] {
      AggregateAllTotals(docs[..|docs| - 1]);
    }
  }

  // ---------------------------------------------------------------------
  // The analysis data

  /** `Math.round(x / n)` for `n > 0`: the nearest integer, halves upward. */
  function RoundDiv(x: int, n: int): (r: int)
    requires n > 0
    ensures 2 * n * r - n <= 2 * x < 2 * n * r + n
  {
    (2 * x + n) / (2 * n)
  }

  /** `analysisData`, in cents (the two-decimal rounding of whole cents
      changes nothing except for the monthly average). */
  datatype AnalysisData = AnalysisData(
    totalTransactions: nat,
    totalIncome: Cents,
    totalExpenses: Cents,
    netBalance: Cents,
    topSpendingCategories: Totals<string>,
    averageMonthlySpending: Cents,
    timeframeMonths: nat)

  /** `Math.max(1, Object.keys(monthlySpending).length)`. */
  function MonthCount(a: Aggregate): (n: nat)
    ensures n >= 1
  {
    if |a.monthlySpending| < 1 then 1 else |a.monthlySpending|
  }

  /** The figures handed to the advisor model and returned as `data`. */
  function Summarize(list: seq<Doc>): (r: AnalysisData)
    ensures r.totalTransactions == |list|
    ensures r.netBalance == r.totalIncome - r.totalExpenses
    ensures r.totalIncome == SumWhere(list, Credits)
    ensures r.totalExpenses == SumWhere(list, Debits)
    ensures r.timeframeMonths >= 1
    ensures r.timeframeMonths == (if |DebitMonths(list)| < 1 then 1 else |DebitMonths(list)|)
    ensures 2 * r.timeframeMonths * r.averageMonthlySpending - r.timeframeMonths
            <= 2 * r.totalExpenses < 2 * r.timeframeMonths * r.averageMonthlySpending + r.timeframeMonths
    ensures |r.topSpendingCategories| <= 5 && SortedDesc(r.topSpendingCategories)
    ensures forall i :: 0 <= i < |r.topSpendingCategories| ==> r.topSpendingCategories[i] in AggregateAll(list).categoryTotals
    ensures r.topSpendingCategories == Top5(AggregateAll(list).categoryTotals)
    ensures |AggregateAll(list).categoryTotals| > 5 ==>
              forall e :: e in AggregateAll(list).categoryTotals && e !in r.topSpendingCategories ==> e.1 <= r.topSpendingCategories[4].1
    ensures forall v :: WithTotal(r.topSpendingCategories, v) <= WithTotal(AggregateAll(list).categoryTotals, v)
  {
    var a := AggregateAll(list);
    AggregateAllSums(list);
    AggregateAllKeys(list);
    AggregateAllTotals(list);
    DistinctKeysCount(a.monthlySpending);
    Top5Properties(a.categoryTotals);
    var months := MonthCount(a);
    AnalysisData(
      totalTransactions := |list|,
      totalIncome := a.totalIncome,
      totalExpenses := a.totalExpenses,
      netBalance := a.totalIncome - a.totalExpenses,
      topSpendingCategories := Top5(a.categoryTotals),
      averageMonthlySpending := RoundDiv(a.totalExpenses, months),
      timeframeMonths := months)
  }

  /** An object with distinct keys has one entry per key. */
  lemma {:induction false} DistinctKeysCount<K>(b: Totals<K>)
    requires DistinctKeys(b)
    ensures |Keys(b)| == |b|
  {
    if b != [] {
      DistinctKeysCount(b[1..]);
    }
  }

  /** `Transaction.find({ userId }).limit(500)`: the first 500 documents. */
  function Limit500(docs: seq<Doc>): (r: seq<Doc>)
    ensures |r| == if |docs| < 500 then |docs| else 500
    ensures r == docs[..|r|]
  {
    if |docs| <= 500 then docs else docs[..500]
  }

  datatype SpendingResponse =
    | NoTransactions              // `{ analysis: null, message: "No transactions available..." }`
    | Analysis(data: AnalysisData)

  /** What the spending-analysis route answers; the narrative fields the
      advisor model (or the fallback) adds around `data` are not modelled. */
  function SpendingAnalysis(store: Store, user: UserId): (r: SpendingResponse)
    ensures r.NoTransactions? <==> CountDocuments(store, user) == 0
    ensures r.Analysis? ==> r.data == Summarize(Limit500(Owned(store, user)))
    ensures r.Analysis? ==> 1 <= r.data.totalTransactions <= 500
  {
    var list := Limit500(Owned(store, user));
    if |list| == 0 then NoTransactions else Analysis(Summarize(list))
  }

  /** Three debits of 100, 50 and 20 and a credit of 500, at the instants
      `t0` … `t3`. */
  function ExampleDocs(t0: Time, t1: Time, t2: Time, t3: Time): seq<Doc> {
    var raw := CsvRaw(UploadRow(None, None, None, None, None));
    [ Doc("u", t0, "Kroger", 10000, "debit", "csv", Some("Groceries"), None, raw, 0),
      Doc("u", t1, "Uber", 5000, "debit", "csv", Some("Transport"), None, raw, 0),
      Doc("u", t2, "Salary", 50000, "credit", "csv", Some("Income"), None, raw, 0),
      Doc("u", t3, "Walmart", 2000, "debit", "csv", Some("Groceries"), None, raw, 0) ]
  }

  /** The pass over the example when the debits fall in four-digit years,
      the first two in one month and the last in another: income 500,
      expenses 170, one bucket per category and per month, in order of first
      appearance. */
  lemma ExampleAggregate(t0: Time, t1: Time, t2: Time, t3: Time)
    requires FourDigitYear(t0) && FourDigitYear(t1) && FourDigitYear(t3)
    requires MonthOf(t0) == MonthOf(t1) && MonthOf(t0) != MonthOf(t3)
    ensures AggregateAll(ExampleDocs(t0, t1, t2, t3)) ==
      Aggregate(50000, 17000, [("Groceries", 12000), ("Transport", 5000)],
                [(MonthOf(t0), 15000), (MonthOf(t3), 2000)])
  {
    var docs := ExampleDocs(t0, t1, t2, t3);
    var m, n := MonthOf(t0), MonthOf(t3);
    assert docs[..3][..2][..1][..0] == [];
    var a1 := Aggregate(0, 10000, [("Groceries", 10000)], [(m, 10000)]);
    assert Step(Aggregate(0, 0, [], []), docs[0]) == a1;
    assert AggregateAll(docs[..3][..2][..1]) == a1;
    assert "Groceries" != "Transport";
    var a2 := Aggregate(0, 15000, [("Groceries", 10000), ("Transport", 5000)], [(m, 15000)]);
    assert Bump(a1.categoryTotals, "Transport", 5000) == a2.categoryTotals;
    assert Step(a1, docs[1]) == a2;
    assert AggregateAll(docs[..3][..2]) == a2;
    var a3 := a2.(totalIncome := 50000);
    assert AggregateAll(docs[..3]) == a3;
    assert Bump(a3.categoryTotals, "Groceries", 2000) == [("Groceries", 12000), ("Transport", 5000)];
    assert Bump(a3.monthlySpending, n, 2000) == [(m, 15000), (n, 2000)];
  }

  /** The figures of the same example: expenses 170, income 500, net 330,
      two months, 85 a month, categories ranked Groceries (120) then
      Transport (50). */
  lemma SpendingExample(t0: Time, t1: Time, t2: Time, t3: Time)
    requires FourDigitYear(t0) && FourDigitYear(t1) && FourDigitYear(t3)
    requires MonthOf(t0) == MonthOf(t1) && MonthOf(t0) != MonthOf(t3)
    ensures Summarize(ExampleDocs(t0, t1, t2, t3)) ==
      AnalysisData(4, 50000, 17000, 33000, [("Groceries", 12000), ("Transport", 5000)], 8500, 2)
  {
    ExampleAggregate(t0, t1, t2, t3);
    ExampleRanking();
    var a := AggregateAll(ExampleDocs(t0, t1, t2, t3));
    assert MonthCount(a) == 2;
    assert RoundDiv(17000, 2) == 8500;
  }

  /** The pass over the example when all three debits fall in one year
      past 9999, whose months share one key: a single month bucket of 170. */
  lemma ExampleAggregateExpandedYear(t0: Time, t1: Time, t2: Time, t3: Time)
    requires !FourDigitYear(t0) && !FourDigitYear(t1) && !FourDigitYear(t3)
    requires MonthOf(t0) == MonthOf(t1) && MonthOf(t0) == MonthOf(t3)
    ensures AggregateAll(ExampleDocs(t0, t1, t2, t3)) ==
      Aggregate(50000, 17000, [("Groceries", 12000), ("Transport", 5000)], [(MonthOf(t0), 17000)])
  {
    var docs := ExampleDocs(t0, t1, t2, t3);
    var m := MonthOf(t0);
    assert docs[..3][..2][..1][..0] == [];
    var a1 := Aggregate(0, 10000, [("Groceries", 10000)], [(m, 10000)]);
    assert Step(Aggregate(0, 0, [], []), docs[0]) == a1;
    assert AggregateAll(docs[..3][..2][..1]) == a1;
    assert "Groceries" != "Transport";
    var a2 := Aggregate(0, 15000, [("Groceries", 10000), ("Transport", 5000)], [(m, 15000)]);
    assert Bump(a1.categoryTotals, "Transport", 5000) == a2.categoryTotals;
    assert Step(a1, docs[1]) == a2;
    assert AggregateAll(docs[..3][..2]) == a2;
    var a3 := a2.(totalIncome := 50000);
    assert AggregateAll(docs[..3]) == a3;
    assert Bump(a3.categoryTotals, "Groceries", 2000) == [("Groceries", 12000), ("Transport", 5000)];
    assert Bump(a3.monthlySpending, m, 2000) == [(m, 17000)];
  }

  /** Debits dated 10000-01-15, 10000-02-15 and 10000-02-15 (midnight UTC):
      the expanded-year key puts both months in one bucket, so the summary
      counts one month and the average is the whole 170 of expenses. */
  lemma SpendingYear10000(t2: Time)
    ensures Summarize(ExampleDocs(253403510400000, 253406188800000, t2, 253406188800000)) ==
      AnalysisData(4, 50000, 17000, 33000, [("Groceries", 12000), ("Transport", 5000)], 17000, 1)
  {
    YearTenThousandOneKey();
    ExampleAggregateExpandedYear(253403510400000, 253406188800000, t2, 253406188800000);
    ExampleRanking();
    var a := AggregateAll(ExampleDocs(253403510400000, 253406188800000, t2, 253406188800000));
    assert MonthCount(a) == 1;
    assert RoundDiv(17000, 1) == 17000;
  }

  /** The example's categories are already in descending order. */
  lemma ExampleRanking()
    ensures Top5<string>([("Groceries", 12000), ("Transport", 5000)]) == [("Groceries", 12000), ("Transport", 5000)]
  {
    assert SortDesc<string>([("Groceries", 12000), ("Transport", 5000)]) == [("Groceries", 12000), ("Transport", 5000)];
  }

  /** The example at midnight UTC of 2024-01-15, 2024-01-20, 2024-01-25 and
      2024-02-10. */
  lemma SpendingExample2024()
    ensures Summarize(ExampleDocs(1705276800000, 1705708800000, 1706140800000, 1707523200000)) ==
      AnalysisData(4, 50000, 17000, 33000, [("Groceries", 12000), ("Transport", 5000)], 8500, 2)
  {
    MonthOfExamples();
    SpendingExample(1705276800000, 1705708800000, 1706140800000, 1707523200000);
  }
}

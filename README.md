# SpendSense transaction core, modelled in Dafny

SpendSense is a personal-finance application. Its transaction core:

- brings transactions in three ways:
  - an import from a demo bank API, with thirty built-in mock transactions as the fallback;
  - a CSV file parsed in the browser;
  - a manual entry form.
- normalizes every record into one stored `Transaction` shape and validates it against a schema;
- categorizes every uncategorized record. A keyword rule table is tried first; a generative model is asked when no rule matches, with fixed fallback answers;
- aggregates a user's transactions into a spending analysis: income, expenses, per-category and per-month buckets, the top five categories and the monthly average;
- summarizes transactions for a chart recommendation, falling back to a default pie chart;
- re-categorizes a batch with a model whose answer is used only above a confidence of 0.7.

The dashboard adds three pieces of client logic: the CSV text parse, the net-worth helpers, and the guard in front of the manual entry.

The model is organised as the source is:

| file | module | models |
|---|---|---|
| `wrappers.dfy` | `Wrappers` | `Option`, `Result` |
| `js_text.dfy` | `JsText` | JavaScript truthiness and `a \|\| b`, `toUpperCase` / `toLowerCase`, `trim`, `split`, `split(/\r?\n/)`, `filter(Boolean)`, keyword search |
| `records.dfy` | `Records` | the raw input shapes, the unsaved transaction `Tx`, money in cents, times in milliseconds, the month key (`YYYY-MM`, or the signed six-digit year outside the years 0 to 9999) |
| `transaction_schema.dfy` | `TransactionSchema` | the Mongoose schema (`Cast`), the store of documents per user, `insertMany`, `create`, `countDocuments` |
| `rule_categorizer.dfy` | `RuleCategorizer` | `ruleCategorize` |
| `categorization.dfy` | `Categorization` | `aiCategorize` (the reply is a parameter), `categorizeArray` as an in-place loop over an array |
| `normalizers.dfy` | `Normalizers` | the bank, CSV and manual-entry mappings |
| `bank_import.dfy` | `BankImport` | `getMockTransactions`, `fetchNessieTransactions` (the bank API's replies are parameters) |
| `routes.dfy` | `Routes` | the import, upload and manual-entry handlers, as a function of the store and as methods that follow the handlers' statements |
| `buckets.dfy` | `Buckets` | the `obj[k] = (obj[k] \|\| 0) + x` dictionaries, and `Object.entries(...).sort((a, b) => b - a).slice(0, 5)` |
| `spending.dfy` | `Spending` | the spending-analysis aggregation and its numbers |
| `gemini_batch.dfy` | `GeminiBatch` | `categorizeTransaction`, `categorizeTransactionsBatch` |
| `chart_analysis.dfy` | `ChartAnalysis` | `prepareDataSummary`, `getDefaultChartRecommendation`, `analyzeDataForChart` |
| `dashboard.dfy` | `Dashboard` | the CSV parse in `uploadCsv`, `calculateTotalAssets` / `calculateTotalLiabilities` / `calculateNetWorth`, the `addManualTransaction` guard |

Representation:

- Money is an integer number of cents. Times are integers (milliseconds since the epoch).
- A value JavaScript may see as `undefined`, `null`, `NaN` or an Invalid Date is an `Option`.
- The store is a map from user to that user's documents, in insertion order.
- A handler is a function from the store before the request to the store after it and the response (`Outcome`). A method beside it follows the handler's own statements and is proved equal to that function.
- Every call the program makes to the outside world becomes a parameter:
  - `Number(...)` → `NumberParser`;
  - `new Date(...)` → `DateParser`;
  - `parseFloat` → `FloatParser`;
  - the bank API → `NessieEnv`;
  - the generative model → `AiOracle`, `GeminiOracle`, `ChartReply`;
  - `Date.now()` → `now`.

Where the system's documented behaviour and its code differ, the model follows the code:

- **`source` enum.** The schema's enum holds only "bank" and "csv". The manual route stores "manual", so every manual entry fails validation (see Findings).
- **Negative amounts.** Amounts are not forced to be non-negative: `Number(t.amount) || 0` keeps a negative amount.
- **Header aliases.** The aliases `merchant` and `transaction_date` are known only to the browser's CSV parse. The upload route itself accepts only `description` and `desc`.
- **Averages.** The spending analysis rounds with `Math.round(x * 100) / 100` on floating-point dollars. Here the sums are exact cents, and the monthly average is rounded half up to a cent (`RoundDiv`).

## Model

| member | source | states |
|---|---|---|
| JsText.Pick | backend/routes/aiRoutes.js:174-175 | `a \|\| b` on an optional string: the first value when it is a non-empty string, the fallback otherwise |
| JsText.Trim | backend/models/Transaction.js:6 | the trimmed text neither starts nor ends with white space |
| JsText.TrimRemovesOnlySpace | backend/models/Transaction.js:6 | trimming yields a contiguous slice of the text |
| JsText.TrimKeeps | backend/models/Transaction.js:6 | a text without white space at either end is unchanged by trimming |
| JsText.TrimIdempotent | backend/models/Transaction.js:6 | trimming twice equals trimming once |
| JsText.UpperIdempotent | backend/routes/aiRoutes.js:26 | upper-casing twice equals upper-casing once |
| JsText.UpperOfLower | backend/routes/aiRoutes.js:26 | upper-casing discards any earlier lower-casing |
| JsText.SplitPiecesFree | frontend/src/Components/Dashboard.js:226 | no piece of `split(",")` contains a comma |
| JsText.JoinSplit | frontend/src/Components/Dashboard.js:226 | joining the pieces with the separator gives the line back |
| JsText.SplitLines | frontend/src/Components/Dashboard.js:223 | one piece per line feed; a carriage return before a line feed is dropped with it |
| JsText.NonEmpty | frontend/src/Components/Dashboard.js:223 | `filter(Boolean)` keeps exactly the non-empty lines |
| JsText.NonEmptyCounts | frontend/src/Components/Dashboard.js:223 | the filter keeps each non-empty line as often as the input has it, and no empty line |
| JsText.NonEmptyAppend | frontend/src/Components/Dashboard.js:223 | the filter distributes over concatenation, so the kept lines stay in input order |
| Records.MonthOfExamples | backend/routes/aiRoutes.js:303 | the `YYYY-MM` key of three concrete instants (two in January 2024, one in February 2024) |
| Records.MonthOfSameKey | backend/routes/aiRoutes.js:303 | two instants share a key exactly when they share the calendar year and either both lie outside the four-digit years or both lie inside them in the same month |
| Records.FourDigitYearBounds | backend/routes/aiRoutes.js:303 | the four-digit years run from 0000-01-01T00:00Z up to 10000-01-01T00:00Z: the instants on either side of each bound fall in December of one year and January of the next, with the matching kind of key |
| Records.YearTenThousandOneKey | backend/routes/aiRoutes.js:303 | 10000-01-15 and 10000-02-15 both get the key `+010000`, while January and February 2024 get different keys |
| TransactionSchema.Cast | backend/models/Transaction.js:3-14 | the cast succeeds exactly when the date and amount are valid, the trimmed description is non-empty, the type is debit/credit and the source is in the enum; the stored document is the trimmed record with `createdAt` = now |
| TransactionSchema.CastAll | backend/routes/aiRoutes.js:241-243 | a batch casts exactly when every element does, element by element |
| TransactionSchema.InsertMany | backend/routes/aiRoutes.js:241-243 | all or nothing: on success the user's documents gain the whole cast batch at the end, otherwise an error |
| TransactionSchema.Create | backend/routes/aiRoutes.js:438-441 | one validated document appended to the user's documents, or an error |
| TransactionSchema.CastAllOwned | backend/models/Transaction.js:4-13 | every document of a successful batch is valid and belongs to the inserting user |
| TransactionSchema.InsertManyKeepsStoreValid | backend/routes/aiRoutes.js:241-243 | an insert keeps every stored document valid, leaves other users' documents unchanged and raises the count by the batch size |
| RuleCategorizer.FirstMatchIsEarliestHit | backend/routes/aiRoutes.js:25-38 | the first matching rule group wins; none matches exactly when no keyword of any group occurs |
| RuleCategorizer.RuleCategorize | backend/routes/aiRoutes.js:25-38 | no category exactly when no keyword occurs in the upper-cased text; otherwise the category of the earliest group with a keyword |
| RuleCategorizer.RuleCategoryInTable | backend/routes/aiRoutes.js:27-36 | a rule category is one of the ten fixed names |
| RuleCategorizer.RuleCaseInsensitive | backend/routes/aiRoutes.js:26 | the rule result does not depend on letter case |
| RuleCategorizer.WholeFoodsIsGroceries | backend/routes/aiRoutes.js:27 | "Whole Foods Market" is Groceries |
| RuleCategorizer.EarlierRuleWins | backend/routes/aiRoutes.js:27-30 | "Market Cafe" hits the Food & Beverage group, yet Groceries (earlier) wins |
| RuleCategorizer.NoKeywordNoRule | backend/routes/aiRoutes.js:37 | a text with no keyword gets no rule category |
| Categorization.AiCategorize | backend/routes/aiRoutes.js:41-64 | failure gives Uncategorized / "Fallback classification"; a parsed reply keeps its non-empty category and reason, defaulting to Uncategorized / "AI classification"; both fields are never empty |
| Categorization.Classify | backend/routes/aiRoutes.js:69-77 | the rule label with reason "Rule-based match" when a rule matches, the model's label otherwise |
| Categorization.Categorize | backend/routes/aiRoutes.js:68-78 | a record with a category is unchanged; otherwise it receives the label of `Classify`; afterwards the category is non-empty |
| Categorization.CategorizeArray | backend/routes/aiRoutes.js:66-81 | the array is updated in place to the element-wise categorization of its old contents |
| Categorization.CategorizeEntry | backend/routes/aiRoutes.js:68-78 | one record: kept when it has a category, otherwise given the rule's category or the model's label |
| Categorization.CategorizeAllComplete | backend/routes/aiRoutes.js:66-81 | every output has a category, only category and reason change, categorized inputs are kept |
| Categorization.RuleBeforeAi | backend/routes/aiRoutes.js:69-77 | a rule match never depends on the model's replies; otherwise the model's label is used |
| Categorization.CategorizeAllIdempotent | backend/routes/aiRoutes.js:68 | categorizing an already categorized batch changes nothing |
| Normalizers.NormalizeType | backend/routes/aiRoutes.js:262 | the type is credit exactly when the lower-cased input is "credit", debit otherwise |
| Normalizers.FromBankFields | backend/routes/aiRoutes.js:172-180 | the date, description, amount and type fallbacks of a bank record; source bank; the raw record kept; no category |
| Normalizers.FromUploadRowFields | backend/routes/aiRoutes.js:258-265 | the date, description ("Transaction"), amount (0) and type fallbacks of a CSV row; source csv; raw row kept |
| Normalizers.UnifyUpload | backend/routes/aiRoutes.js:258-265 | one mapped record per row, in order |
| Normalizers.NormalizeManual | backend/routes/aiRoutes.js:407-421 | nothing without all four required fields; otherwise the parsed date and amount, trimmed description, normalized type, source manual, the given category or none |
| BankImport.MockTable | backend/routes/aiRoutes.js:85-116 | thirty entries, the i-th dated i+1 days before now |
| BankImport.MockRowsWellFormed | backend/routes/aiRoutes.js:85-116 | thirty rows of allowed type, all but entry 17 with an amount, all with trimmed descriptions |
| BankImport.MockTransactions | backend/routes/aiRoutes.js:84-127 | thirty bank records in table order; entry 17 takes its misnamed `target` as its amount |
| BankImport.GetMockTransactions | backend/routes/aiRoutes.js:84-127 | the array built, patched at index 17 and mapped, equals `MockTransactions` |
| BankImport.FromMockAdmissible | backend/routes/aiRoutes.js:122-126 | a mock entry with a trimmed description, an amount and an allowed type passes the schema |
| BankImport.MockTransactionsAdmissible | backend/routes/aiRoutes.js:85-126 | every mock record has its date and an amount (4367 cents for entry 17), no category, and passes the schema |
| BankImport.SelectedAccounts | backend/routes/aiRoutes.js:166 | at most the first two accounts, in order |
| BankImport.AccountRecords | backend/routes/aiRoutes.js:171-181 | a failed account contributes nothing; otherwise one mapped record per bank transaction |
| BankImport.AccountRecordsAreBankRecords | backend/routes/aiRoutes.js:171-179 | every record of one account reply has source bank, no category and a bank raw record |
| BankImport.CollectedAreBankRecords | backend/routes/aiRoutes.js:169-185 | every collected record has source bank, no category and a bank raw record |
| BankImport.CollectedEmpty | backend/routes/aiRoutes.js:168-183 | nothing is collected exactly when every selected account adds no record |
| BankImport.NessieTransactionsBankRecords | backend/routes/aiRoutes.js:155-198 | whatever the API answers, at least one record, each from the bank source without a category |
| BankImport.NessieTransactionsFallback | backend/routes/aiRoutes.js:155-198 | never empty; the mock data without a key or when the account list fails; with a key and a list, the collected records of the first two accounts, or the mock data exactly when every one of them adds nothing; all bank records without a category |
| BankImport.NessieWithoutKeyAdmissible | backend/routes/aiRoutes.js:156-160 | without a key, thirty records that all pass the schema |
| BankImport.PushRecords | backend/routes/aiRoutes.js:172-181 | the inner `forEach` appends exactly one mapped record per bank transaction of the account, in order |
| BankImport.FetchNessieTransactions | backend/routes/aiRoutes.js:155-198 | the nested loop's result equals `NessieTransactions` |
| Routes.CategorizeAllKeepsAdmissible | backend/routes/aiRoutes.js:240-243 | categorizing changes no record's schema verdict nor its source, and leaves every record categorized |
| Routes.ImportRoute | backend/routes/aiRoutes.js:231-249 | the handler's store and response equal `Import` |
| Routes.ImportAtMostOnce | backend/routes/aiRoutes.js:233-237 | a user who owns documents gets "already imported" and an unchanged store; a successful import started from none |
| Routes.ImportKeepsStoreValid | backend/routes/aiRoutes.js:239-244 | an import keeps the store valid, touches only the importing user, and stores categorized bank records |
| Routes.ImportWithoutKeyStoresMock | backend/routes/aiRoutes.js:239-244 | without an API key a new user's import reports and stores thirty documents |
| Routes.ImportOfAdmissible | backend/routes/aiRoutes.js:239-243 | a new user's batch that passes the schema is stored whole |
| Routes.UploadRoute | backend/routes/aiRoutes.js:252-275 | the handler's store and response equal `Upload` |
| Routes.UploadStoresIffRowsAccepted | backend/routes/aiRoutes.js:258-271 | an upload stores (and reports the row count) exactly when every row's date parses and its description is non-blank after trimming |
| Routes.UploadRejectsNonArray | backend/routes/aiRoutes.js:255-256 | a body without an array is refused and writes nothing |
| Routes.ManualTransaction | backend/routes/aiRoutes.js:407-436 | built exactly for complete input; always categorized; a given category keeps "User specified", else rule then model; other fields as `NormalizeManual` |
| Routes.ManualRoute | backend/routes/aiRoutes.js:405-452 | the handler's store and response equal `Manual` under the given `source` enum (as written, or with "manual" added) |
| Routes.ManualNeverStored | backend/routes/aiRoutes.js:418 | as written, no manual request changes the store |
| Routes.ManualIntendedRoundTrip | backend/routes/aiRoutes.js:413-441 | with "manual" in the enum a complete, parseable entry is stored and its date, trimmed description, amount and type come back |
| Buckets.Bump | backend/routes/aiRoutes.js:309-310 | the key's total grows by the amount, other keys keep theirs, a new key is appended, the grand total grows by the amount, distinct keys stay distinct |
| Buckets.Insert | backend/routes/aiRoutes.js:321 | insertion keeps every entry (as a multiset) and adds one |
| Buckets.InsertKeepsSorted | backend/routes/aiRoutes.js:321 | inserting into a descending list keeps it descending |
| Buckets.SortDesc | backend/routes/aiRoutes.js:321 | the sort is descending by total and a permutation of its input |
| Buckets.InsertStable | backend/routes/aiRoutes.js:321 | an inserted entry lands after every entry with its total |
| Buckets.SortDescStable | backend/routes/aiRoutes.js:321 | the sort is stable: for each total, the entries with that total keep their input order |
| Buckets.Top5 | backend/routes/aiRoutes.js:320-322 | `min(5, n)` entries, a prefix of the sorted entries |
| Buckets.Top5Properties | backend/routes/aiRoutes.js:320-322 | at most five entries, descending, each from the dictionary, none left out larger than the fifth, ties kept in first-seen order |
| Buckets.Top5Stable | backend/routes/aiRoutes.js:320-322 | for each total, the kept entries with that total are the first ones of the dictionary with that total |
| Spending.AggregateSpending | backend/routes/aiRoutes.js:301-312 | the `forEach` over the list equals the fold `AggregateAll` |
| Spending.AggregateAllSums | backend/routes/aiRoutes.js:301-312 | income is the sum of credits, expenses the sum of debits, each category and month bucket the sum of its debits |
| Spending.AggregateAllKeys | backend/routes/aiRoutes.js:309-310 | the buckets' keys are exactly the categories and months of the debits |
| Spending.AggregateAllTotals | backend/routes/aiRoutes.js:305-311 | each bucket dictionary adds up to total expenses and has distinct keys |
| Spending.RoundDiv | backend/routes/aiRoutes.js:324 | the quotient rounded half up: within half a unit of the exact quotient |
| Spending.MonthCount | backend/routes/aiRoutes.js:324-325 | at least one month |
| Spending.DistinctKeysCount | backend/routes/aiRoutes.js:324 | with distinct keys, the number of keys is the number of entries |
| Spending.Summarize | backend/routes/aiRoutes.js:315-326 | the count, income, expenses and net balance as sums over the list; months = max(1, distinct debit months); the average within half a cent of expenses / months; the top categories are `Top5` of the category buckets: at most five, descending, each a bucket, none left out larger than the fifth, ties kept in first-seen order |
| Spending.Limit500 | backend/routes/aiRoutes.js:292 | the first `min(500, n)` documents |
| Spending.SpendingAnalysis | backend/routes/aiRoutes.js:290-293 | no analysis exactly when the user has no documents; otherwise the summary of at most 500 of them |
| Spending.ExampleAggregate | backend/routes/aiRoutes.js:301-312 | the buckets of a four-transaction example (debits of 100, 50, 20 and a credit of 500) whose debits fall in four-digit years, the first two in one month and the last in another: income, expenses, one bucket per category and per month in order of first appearance |
| Spending.SpendingExample | backend/routes/aiRoutes.js:315-326 | the analysis numbers of the same example: net 330, two months, 85 a month, Groceries ranked before Transport |
| Spending.ExampleAggregateExpandedYear | backend/routes/aiRoutes.js:301-312 | the same example with every debit in one year past 9999: a single month bucket of 170 |
| Spending.SpendingYear10000 | backend/routes/aiRoutes.js:301-326 | debits dated 10000-01-15 and 10000-02-15 count as one month, so the monthly average is the whole 170 of expenses |
| Spending.SpendingExample2024 | backend/routes/aiRoutes.js:301-326 | the same numbers for the example dated 2024-01-15, 2024-01-20, 2024-01-25 and 2024-02-10 |
| GeminiBatch.CategorizeTransaction | backend/services/geminiCategorization.js:34-89 | no candidates or a failure gives Other / "Unable to categorize automatically" / 0.1; a JSON `null` gives a null analysis; an object is returned as parsed |
| GeminiBatch.CategorizeTransactionsBatch | backend/services/geminiCategorization.js:91-125 | the loop's array equals `EnrichAll` |
| GeminiBatch.EnrichAllGate | backend/services/geminiCategorization.js:102-118 | each output keeps its transaction; its category, reason and confidence are those of its own reply's analysis, or "Other", "Categorization failed" and 0.1 for a `null` analysis; the final category is the model's exactly when the confidence is above 0.7, the transaction's own otherwise |
| GeminiBatch.FailuresKeepCategory | backend/services/geminiCategorization.js:112-120 | a failed call or a `null` reply reports Other with confidence 0.1 and keeps the transaction's category |
| ChartAnalysis.Abs | backend/services/chartAnalysisService.js:108 | `Math.abs` is the value or its negation, never negative |
| ChartAnalysis.EarliestDate | backend/services/chartAnalysisService.js:96 | `NaN` exactly when a date is invalid; otherwise a date of the list no later than any |
| ChartAnalysis.LatestDate | backend/services/chartAnalysisService.js:97 | `NaN` exactly when a date is invalid; otherwise a date of the list no earlier than any |
| ChartAnalysis.TallyAllMeaning | backend/services/chartAnalysisService.js:106-116 | the buckets add up to the total, which is the sum of absolute amounts; no bucket is negative; the positive count and the other count add up to the length |
| ChartAnalysis.Average | backend/services/chartAnalysisService.js:118 | 0 for no transactions, otherwise the total divided by the count |
| ChartAnalysis.PrepareDataSummary | backend/services/chartAnalysisService.js:92-125 | the method's summary equals `Summary` |
| ChartAnalysis.SummaryRange | backend/services/chartAnalysisService.js:94-98 | no range for no transactions, `NaN` when a date is invalid, otherwise bounds enclosing every date |
| ChartAnalysis.SummaryAmounts | backend/services/chartAnalysisService.js:106-116 | the total and the buckets' sum are the sum of absolute amounts; the counts split the list |
| ChartAnalysis.SummaryAverage | backend/services/chartAnalysisService.js:118 | the average is the mean absolute amount |
| ChartAnalysis.SummaryTop | backend/services/chartAnalysisService.js:119-122 | the top categories are `Top5` of the buckets: at most five, descending, each a bucket, none left out larger than the fifth, ties kept in first-seen order |
| ChartAnalysis.Pie | backend/services/chartAnalysisService.js:127-147 | a pie chart with one `{name, value}` point per top category in order, the fixed keys and five colours |
| ChartAnalysis.AnalyzeDataForChart | backend/services/chartAnalysisService.js:40-90 | the model's recommendation when it parses, the default pie chart on any failure |
| ChartAnalysis.DefaultChartSlices | backend/services/chartAnalysisService.js:127-140 | the default chart has at most five slices, largest first, none negative |
| Dashboard.BindRow | frontend/src/Components/Dashboard.js:227-228 | the `forEach` fills the object as `Bound` |
| Dashboard.BoundMeaning | frontend/src/Components/Dashboard.js:228 | the object's keys are the headers; a header holds the column of its last occurrence |
| Dashboard.RowAliases | frontend/src/Components/Dashboard.js:229-234 | date from `date` else `transaction_date`; description from `description`, `desc`, `merchant` or empty; the amount as is; type defaulting to debit |
| Dashboard.Headers | frontend/src/Components/Dashboard.js:224 | one trimmed, lower-cased name per comma-separated header |
| Dashboard.ParseCsv | frontend/src/Components/Dashboard.js:223-235 | no rows (the parse throws) exactly when the file has no non-empty line; otherwise one row per non-empty line after the header |
| Dashboard.UploadCsvRows | frontend/src/Components/Dashboard.js:218-235 | the parse's loop equals `ParseCsv` |
| Dashboard.MerchantReachesServer | frontend/src/Components/Dashboard.js:231 | a `merchant` column, with no `description`/`desc`, becomes the description the server stores |
| Dashboard.HeadersNormalized | frontend/src/Components/Dashboard.js:224 | a header ` Amount ` (any case, any surrounding space) heads the amount column |
| Dashboard.SumFiveFields | frontend/src/Components/Dashboard.js:53-56 | the `reduce` over five fields is their plain sum |
| Dashboard.NetWorthExpanded | frontend/src/Components/Dashboard.js:42-92 | assets and liabilities are the sums of their five fields; net worth is their difference |
| Dashboard.SumFieldsAgree | frontend/src/Components/Dashboard.js:53-56 | forms that agree on the listed fields have the same sum |
| Dashboard.UnparseableCountsZero | frontend/src/Components/Dashboard.js:54 | an unparseable field counts as if it were empty |
| Dashboard.OtherFieldsIgnored | frontend/src/Components/Dashboard.js:45-51 | a field outside the five asset fields does not change total assets |
| Dashboard.ManualRequest | frontend/src/Components/Dashboard.js:344-359 | a request is sent exactly when description and amount are non-empty, carrying the whole form |
| Dashboard.ManualGuardAgainstRoute | frontend/src/Components/Dashboard.js:345-348 | a sent form passes the route's required-field check exactly when its date and type are non-empty too |

## Left out

- **Outside calls.** Network calls, the prompts and the generative-model calls themselves are not modelled: their results are parameters. So are authentication (JWT), the Express plumbing, `getJSON`'s five-second timeout and the 100 ms delay between batch calls.
- **Number formats.** Floating-point arithmetic is not modelled: money is exact cents. `Number(...)`, `parseFloat` and `new Date(...)` are oracle parameters.
- **Output formatting.** `toLocaleString` is left out, and so is the comma-stripping round trip in `calculateNetWorth`. The net-worth helpers return numbers; the strings they print are not modelled.
- **Case.** Upper- and lower-casing cover ASCII letters only; other letters are left as they are. Trimming is not affected: it removes exactly the white-space and line-terminator characters of ECMAScript's `String.prototype.trim`.
- **Import race.** The import's count-then-insert check is not atomic. Concurrent imports are not modelled, so `Routes.ImportAtMostOnce` holds only for requests handled one after another.
- **Other routes.** The investment-advice and goal routes, the transaction listing route, the `nessieService.js` module and `frontend/src/utils/api.js` are not part of this model.
- **Spending analysis text.** The narrative fields of the spending analysis (overview, strengths and the rest, with their default texts) are not modelled. Only the numbers in `data` are.
- **Key order.** `Object.entries` lists integer-like keys first. The model keeps plain insertion order for all keys.
- **Inherited keys.** The bucket objects are plain `{}` objects, so a key that names an `Object.prototype` member reads the inherited value. The model treats every key as absent until it is set.
- `Buckets.Bump`: a category named `__proto__` in JavaScript loses its debit (the assignment of a number is ignored), and one named `constructor`, `toString`, `valueOf` or another inherited member becomes a string (the inherited function is truthy and `+` concatenates). The model adds the amount to a fresh bucket for every key.
- `Spending.AggregateAllTotals`: holds for category names that are not `Object.prototype` members; month keys never are.
- `ChartAnalysis.TallyAllMeaning`: holds for category names that are not `Object.prototype` members, for the same reason as `Buckets.Bump`.
- **JSON values.** A JSON value of a type other than the one the code expects, such as a number where a string is expected, is not modelled. A confidence given as text is one case.
- **Schema errors.** Mongoose reports every failing field of a document. The model reports one error per failed cast.
- **Dashboard state.** The React state, rendering and storage of the dashboard are not modelled. An empty CSV file makes `uploadCsv` throw before its `try`, so the loading flag is never reset. The model shows the throw (`ParseCsv` is `None`) but not the flag.
- **Chart model reply.** `ChartAnalysis.AnalyzeDataForChart` takes the model's parsed recommendation as already shaped like the default one. It does not check that reply against the response schema.
- `ChartAnalysis.EarliestDate`: `new Date(null)` is the epoch, not an invalid date. The caller is expected to map a missing date to `None` or to 0 as JavaScript would.
- `Spending.Summarize`: states the monthly average to within half a cent of expenses / months (half-up rounding on exact cents). It does not model rounding of floating-point dollars.
- `Records.MonthOf`: JavaScript time values are limited to ±8.64e15 ms (years -271821 to 275760), and `toISOString` throws beyond them. `Records.Time` and the date parsers are unbounded, so the model gives a key to instants JavaScript cannot represent; within the limit, the six-digit expanded year names each year once, as the model's key does.
- `Spending.Limit500`: `find().limit(500)` without a sort returns the first 500 documents in MongoDB's natural order, which is not guaranteed to be insertion order. The model takes the store's sequence order.
- `GeminiBatch.EnrichAll`: its own contract states only the length. What each element is, is stated by `GeminiBatch.EnrichAllGate`.

## Findings

| source | as written | input that shows it | evidently intended | confidence | as-written member | corrected member |
|---|---|---|---|---|---|---|
| backend/routes/aiRoutes.js:418 | the manual route sets `source: "manual"`, but the schema's `source` enum (backend/models/Transaction.js:9) holds only "bank" and "csv", so `Transaction.create` always rejects the document | any complete manual entry, e.g. date "2024-01-15", description "Coffee", amount "4.50", type "debit" | "manual" belongs in the enum, and a complete manual entry is stored with its fields recoverable | not executed | Routes.ManualNeverStored | Routes.ManualIntendedRoundTrip |

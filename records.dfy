/** The values that flow through the categorization pipeline: money, time,
    the shapes of the external records (bank API, CSV row, manual form, mock
    entry) and the in-memory transaction the normalizers produce. */
module Records {
  import opened Wrappers

  /** Money in integer cents, signed: nothing in the code forbids a negative
      amount. */
  type Cents = int

  /** An instant, in milliseconds since 1970-01-01T00:00:00Z (a JavaScript
      `Date`). */
  type Time = int

  /** The owner of a transaction, as given by the verified token. */
  type UserId = string

  const DayMillis: int := 24 * 60 * 60 * 1000

  /** The first seven characters of an instant's ISO string: `YYYY-MM` for
      the years 0 to 9999; for any other year `toISOString` writes a sign
      and six digits, so the seven characters are the year alone. */
  datatype MonthKey = MonthKey(year: int, month: int) | ExpandedYear(year: int)

  /** The UTC calendar year and month of an instant (proleptic Gregorian
      calendar, days-to-civil conversion). */
  function CivilMonth(t: Time): (int, int) {
    var days := t / DayMillis;
    var z := days + 719468;
    var era := z / 146097;
    var doe := z - era * 146097;
    var yoe := (doe - doe / 1460 + doe / 36524 - doe / 146096) / 365;
    var doy := doe - (365 * yoe + yoe / 4 - yoe / 100);
    var mp := (5 * doy + 2) / 153;
    var m := if mp < 10 then mp + 3 else mp - 9;
    var y := yoe + era * 400;
    (if m <= 2 then y + 1 else y, m)
  }

  /** 0000-01-01T00:00:00Z and 10000-01-01T00:00:00Z: the instants from
      the first up to but excluding the second have a four-digit year. */
  const FirstFourDigitYear: Time := -62167219200000
  const FirstExpandedYear: Time := 253402300800000

  predicate FourDigitYear(t: Time) {
    FirstFourDigitYear <= t < FirstExpandedYear
  }

  /** `new Date(t).toISOString().slice(0, 7)`. */
  function MonthOf(t: Time): MonthKey {
    var (y, m) := CivilMonth(t);
    if FourDigitYear(t) then MonthKey(y, m) else ExpandedYear(y)
  }

  /** Two instants share a month key exactly when they fall in the same
      calendar year and either both lie outside the four-digit years, where
      every month of a year gets the one key, or both lie inside them and
      in the same month. */
  lemma MonthOfSameKey(t: Time, u: Time)
    ensures MonthOf(t) == MonthOf(u) <==>
      CivilMonth(t).0 == CivilMonth(u).0 && FourDigitYear(t) == FourDigitYear(u) &&
      (FourDigitYear(t) ==> CivilMonth(t).1 == CivilMonth(u).1)
  {
  }

  /** The bounds are where the calendar says: the last millisecond before
      each bound and the bound itself fall in December of one year and
      January of the next. */
  lemma FourDigitYearBounds()
    ensures CivilMonth(FirstFourDigitYear - 1) == (-1, 12) && MonthOf(FirstFourDigitYear - 1) == ExpandedYear(-1)
    ensures CivilMonth(FirstFourDigitYear) == (0, 1) && MonthOf(FirstFourDigitYear) == MonthKey(0, 1)
    ensures CivilMonth(FirstExpandedYear - 1) == (9999, 12) && MonthOf(FirstExpandedYear - 1) == MonthKey(9999, 12)
    ensures CivilMonth(FirstExpandedYear) == (10000, 1) && MonthOf(FirstExpandedYear) == ExpandedYear(10000)
  {
    YearZeroBounds();
    YearTenThousandBounds();
  }

  /** Days -719529 and -719528 after the epoch are -0001-12-31 and 0000-01-01. */
  lemma YearZeroBounds()
    ensures CivilMonth(FirstFourDigitYear - 1) == (-1, 12)
    ensures CivilMonth(FirstFourDigitYear) == (0, 1)
  {
    assert (FirstFourDigitYear - 1) / DayMillis == -719529;
    assert FirstFourDigitYear / DayMillis == -719528;
    assert -61 / 146097 == -1 && -60 / 146097 == -1;
    assert 146036 / 1460 == 100 && 146036 / 36524 == 3 && 146036 / 146096 == 0;
    assert 146037 / 1460 == 100 && 146037 / 36524 == 3 && 146037 / 146096 == 0;
    assert 145940 / 365 == 399 && 145939 / 365 == 399;
    assert 399 / 4 == 99 && 399 / 100 == 3;
    assert (5 * 306 + 2) / 153 == 10 && (5 * 305 + 2) / 153 == 9;
  }

  /** Days 2932896 and 2932897 after the epoch are 9999-12-31 and 10000-01-01. */
  lemma YearTenThousandBounds()
    ensures CivilMonth(FirstExpandedYear - 1) == (9999, 12)
    ensures CivilMonth(FirstExpandedYear) == (10000, 1)
  {
    assert (FirstExpandedYear - 1) / DayMillis == 2932896;
    assert FirstExpandedYear / DayMillis == 2932897;
    assert 3652364 / 146097 == 24 && 3652365 / 146097 == 24;
    assert 146036 / 1460 == 100 && 146036 / 36524 == 3 && 146036 / 146096 == 0;
    assert 146037 / 1460 == 100 && 146037 / 36524 == 3 && 146037 / 146096 == 0;
    assert 145940 / 365 == 399 && 145939 / 365 == 399;
    assert 399 / 4 == 99 && 399 / 100 == 3;
    assert (5 * 306 + 2) / 153 == 10 && (5 * 305 + 2) / 153 == 9;
  }

  /** January 15 and February 15 of the year 10000 (midnight UTC) share
      the key `+010000`, while the same days of 2024 do not share one. */
  lemma YearTenThousandOneKey()
    ensures MonthOf(253403510400000) == ExpandedYear(10000)
    ensures MonthOf(253406188800000) == ExpandedYear(10000)
    ensures MonthOf(1705276800000) != MonthOf(1707523200000)
  {
    MonthOfYear10000January15();
    MonthOfYear10000February15();
    MonthOfJanuary15();
    MonthOfFebruary10();
  }

  /** Day 2932911 after the epoch is 10000-01-15. */
  lemma MonthOfYear10000January15()
    ensures MonthOf(253403510400000) == ExpandedYear(10000)
  {
    assert 253403510400000 / DayMillis == 2932911;
    assert (2932911 + 719468) / 146097 == 24;
    assert 146051 / 1460 == 100 && 146051 / 36524 == 3 && 146051 / 146096 == 0;
    assert 145954 / 365 == 399;
    assert 399 / 4 == 99 && 399 / 100 == 3;
    assert (5 * 320 + 2) / 153 == 10;
  }

  /** Day 2932942 after the epoch is 10000-02-15. */
  lemma MonthOfYear10000February15()
    ensures MonthOf(253406188800000) == ExpandedYear(10000)
  {
    assert 253406188800000 / DayMillis == 2932942;
    assert (2932942 + 719468) / 146097 == 24;
    assert 146082 / 1460 == 100 && 146082 / 36524 == 3 && 146082 / 146096 == 0;
    assert 145985 / 365 == 399;
    assert 399 / 4 == 99 && 399 / 100 == 3;
    assert (5 * 351 + 2) / 153 == 11;
  }

  /** Three instants of early 2024 (midnight UTC of January 15 and 20 and of
      February 10) fall in the months `2024-01`, `2024-01` and `2024-02`. */
  lemma MonthOfExamples()
    ensures MonthOf(1705276800000) == MonthKey(2024, 1)
    ensures MonthOf(1705708800000) == MonthKey(2024, 1)
    ensures MonthOf(1707523200000) == MonthKey(2024, 2)
  {
    MonthOfJanuary15();
    MonthOfJanuary20();
    MonthOfFebruary10();
  }

  /** Day 19737 after the epoch is 2024-01-15. */
  lemma MonthOfJanuary15()
    ensures MonthOf(1705276800000) == MonthKey(2024, 1)
  {
    assert 1705276800000 / DayMillis == 19737;
    assert (19737 + 719468) / 146097 == 5;
    assert 8720 / 1460 == 5 && 8720 / 36524 == 0 && 8720 / 146096 == 0;
    assert 8715 / 365 == 23;
    assert 23 / 4 == 5 && 23 / 100 == 0;
    assert (5 * 320 + 2) / 153 == 10;
  }

  /** Day 19742 after the epoch is 2024-01-20. */
  lemma MonthOfJanuary20()
    ensures MonthOf(1705708800000) == MonthKey(2024, 1)
  {
    assert 1705708800000 / DayMillis == 19742;
    assert (19742 + 719468) / 146097 == 5;
    assert 8725 / 1460 == 5 && 8725 / 36524 == 0 && 8725 / 146096 == 0;
    assert 8720 / 365 == 23;
    assert 23 / 4 == 5 && 23 / 100 == 0;
    assert (5 * 325 + 2) / 153 == 10;
  }

  /** Day 19763 after the epoch is 2024-02-10. */
  lemma MonthOfFebruary10()
    ensures MonthOf(1707523200000) == MonthKey(2024, 2)
  {
    assert 1707523200000 / DayMillis == 19763;
    assert (19763 + 719468) / 146097 == 5;
    assert 8746 / 1460 == 5 && 8746 / 36524 == 0 && 8746 / 146096 == 0;
    assert 8741 / 365 == 23;
    assert 23 / 4 == 5 && 23 / 100 == 0;
    assert (5 * 346 + 2) / 153 == 11;
  }

  /** A transaction as the Nessie bank API returns it. Absent fields are
      `None`; `amount` is `None` when absent or not a number. */
  datatype BankRecord = BankRecord(
    id: Option<string>,
    transactionDate: Option<string>,
    purchaseDate: Option<string>,
    description: Option<string>,
    payee: Option<string>,
    amount: Option<Cents>,
    transactionType: Option<string>)

  /** One element of the `transactions` array of an upload request. */
  datatype UploadRow = UploadRow(
    date: Option<string>,
    description: Option<string>,
    desc: Option<string>,
    amount: Option<string>,
    kind: Option<string>)

  /** The body of a manual-entry request. */
  datatype ManualInput = ManualInput(
    date: Option<string>,
    description: Option<string>,
    amount: Option<string>,
    kind: Option<string>,
    category: Option<string>)

  /** An entry of the built-in mock data set. `target` is the misnamed
      amount field of one entry. */
  datatype MockItem = MockItem(
    description: string,
    amount: Option<Cents>,
    target: Option<Cents>,
    kind: string,
    date: Time)

  /** The original record, kept for traceability. */
  datatype Raw =
    | BankRaw(record: BankRecord)
    | CsvRaw(row: UploadRow)
    | ManualRaw(input: ManualInput)
    | MockRaw(original: MockItem)

  /** A normalized transaction before it is stored. `date` is `None` for an
      Invalid Date, `amount` is `None` for `NaN`; `kind` is the `type` field. */
  datatype Tx = Tx(
    date: Option<Time>,
    description: string,
    amount: Option<Cents>,
    kind: string,
    source: string,
    category: Option<string>,
    reason: Option<string>,
    raw: Raw)
}

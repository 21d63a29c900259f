/** Income and expense aggregation: the summary of a set of financial records, the
    record filters, the calendar-month window and the month-by-month trend. */
module Financial {
  import opened Common
  import opened Calendar
  import opened Ledger

  /** Totals of a set of records. */
  datatype Summary = Summary(totalIncome: real, totalExpense: real, profit: real)

  /** The summary before anything is loaded. */
  const InitialSummary: Summary := Summary(0.0, 0.0, 0.0)

  /** `r.amount || 0`. */
  function Amount(rec: FinancialRecord): real {
    rec.amount.GetOr(0.0)
  }

  /** `filter(r => r.type === kind).reduce((sum, r) => sum + (r.amount || 0), 0)`. */
  function Total(records: seq<FinancialRecord>, kind: string): (t: real)
    ensures (forall k :: 0 <= k < |records| ==> records[k].kind != kind) ==> t == 0.0
    ensures (forall k :: 0 <= k < |records| ==> Amount(records[k]) >= 0.0) ==> t >= 0.0
  {
    if records == [] then 0.0
    else (if records[0].kind == kind then Amount(records[0]) else 0.0) + Total(records[1..], kind)
  }

  /** The summary the hook computes: profit is income minus expense. */
  function Summarize(records: seq<FinancialRecord>): (s: Summary)
    ensures s.totalIncome == Total(records, Income) && s.totalExpense == Total(records, Expense)
    ensures s.profit == s.totalIncome - s.totalExpense
  {
    var income := Total(records, Income);
    var expense := Total(records, Expense);
    Summary(income, expense, income - expense)
  }

  /** Component-wise sum of two summaries. */
  function Add(a: Summary, b: Summary): Summary {
    Summary(a.totalIncome + b.totalIncome, a.totalExpense + b.totalExpense, a.profit + b.profit)
  }

  lemma {:induction false} TotalAppend(a: seq<FinancialRecord>, b: seq<FinancialRecord>, kind: string)
    ensures Total(a + b, kind) == Total(a, kind) + Total(b, kind)
  {
    if a != [] {
      assert (a + b)[0] == a[0] && (a + b)[1..] == a[1..] + b;
      TotalAppend(a[1..], b, kind);
    } else {
      assert a + b == b;
    }
  }

  lemma TotalSingle(rec: FinancialRecord, kind: string)
    ensures Total([rec], kind) == if rec.kind == kind then Amount(rec) else 0.0
  {
    assert [rec][1..] == [];
  }

  /** The summary of a concatenation is the sum of the summaries. */
  lemma SummaryAdditive(a: seq<FinancialRecord>, b: seq<FinancialRecord>)
    ensures Summarize(a + b) == Add(Summarize(a), Summarize(b))
  {
    TotalAppend(a, b, Income);
    TotalAppend(a, b, Expense);
  }

  /** No records summarise to the initial all-zero summary. */
  lemma EmptySummary()
    ensures Summarize([]) == InitialSummary
  {
  }

  /** A record that is neither income nor expense counts toward neither total. */
  lemma OtherKindsIgnored(records: seq<FinancialRecord>, rec: FinancialRecord)
    requires rec.kind != Income && rec.kind != Expense
    ensures Summarize(records + [rec]) == Summarize(records)
  {
    SummaryAdditive(records, [rec]);
    TotalSingle(rec, Income);
    TotalSingle(rec, Expense);
  }

  /** One income record of amount `x` raises income and profit by `x` (a missing amount by 0). */
  lemma IncomeRecordAdds(records: seq<FinancialRecord>, rec: FinancialRecord)
    requires rec.kind == Income
    ensures Summarize(records + [rec]).totalIncome == Summarize(records).totalIncome + Amount(rec)
    ensures Summarize(records + [rec]).totalExpense == Summarize(records).totalExpense
  {
    SummaryAdditive(records, [rec]);
    TotalSingle(rec, Income);
    TotalSingle(rec, Expense);
    assert Income[0] != Expense[0];
  }

  /** The totals do not depend on the order the store returns the records in. */
  lemma {:induction false} TotalPermutation(a: seq<FinancialRecord>, b: seq<FinancialRecord>, kind: string)
    requires multiset(a) == multiset(b)
    ensures Total(a, kind) == Total(b, kind)
    decreases |a|
  {
    if a == [] {
      assert |b| == |multiset(b)| == 0;
    } else {
      var x := a[0];
      assert x in multiset(b) by { assert x in multiset(a); }
      var i :| 0 <= i < |b| && b[i] == x;
      var rest := b[..i] + b[i + 1..];
      assert b == b[..i] + [x] + b[i + 1..];
      assert a == [x] + a[1..];
      assert multiset(a[1..]) == multiset(rest) by {
        assert multiset(a) == multiset{x} + multiset(a[1..]);
        calc {
          multiset(b);
          multiset(b[..i] + [x] + b[i + 1..]);
          multiset(b[..i]) + multiset{x} + multiset(b[i + 1..]);
          multiset{x} + multiset(rest);
        }
        assert multiset(a[1..]) == multiset(a) - multiset{x};
        assert multiset(rest) == multiset(b) - multiset{x};
      }
      TotalPermutation(a[1..], rest, kind);
      TotalAppend(b[..i] + [x], b[i + 1..], kind);
      TotalAppend(b[..i], [x], kind);
      TotalAppend(b[..i], b[i + 1..], kind);
      TotalSingle(x, kind);
    }
  }

  lemma SummaryPermutation(a: seq<FinancialRecord>, b: seq<FinancialRecord>)
    requires multiset(a) == multiset(b)
    ensures Summarize(a) == Summarize(b)
  {
    TotalPermutation(a, b, Income);
    TotalPermutation(a, b, Expense);
  }

  /** The optional filters of `fetchRecords`; an empty type is falsy and filters nothing. */
  datatype Filters = Filters(kind: Option<string>, startDate: Option<Date>, endDate: Option<Date>)

  /** Whether a record passes every filter that is given. */
  predicate Matches(f: Filters, rec: FinancialRecord) {
    (f.kind.None? || f.kind.value == "" || rec.kind == f.kind.value)
    && (f.startDate.None? || DateLe(f.startDate.value, rec.date))
    && (f.endDate.None? || DateLe(rec.date, f.endDate.value))
  }

  /** With no filter given, every record is included. */
  lemma NoFiltersKeepAll(records: seq<FinancialRecord>)
    ensures Filter(records, (rec: FinancialRecord) => Matches(Filters(None, None, None), rec)) == records
  {
    FilterAll(records, (rec: FinancialRecord) => Matches(Filters(None, None, None), rec));
  }

  /** The `date` window of `fetchMonthlySummary`: the first to the last day of the month. */
  predicate InWindow(rec: FinancialRecord, year: int, month: int)
    requires 1 <= month <= 12
  {
    DateLe(MonthStart(year, month), rec.date) && DateLe(rec.date, MonthEnd(year, month))
  }

  /** The records the month's query returns, in table order. */
  function MonthRecords(records: seq<FinancialRecord>, year: int, month: int): (r: seq<FinancialRecord>)
    requires 1 <= month <= 12
    ensures forall rec :: rec in r <==> rec in records && InWindow(rec, year, month)
  {
    Filter(records, (rec: FinancialRecord) => InWindow(rec, year, month))
  }

  /** For records with valid dates, the window takes exactly the records of that calendar month. */
  lemma MonthRecordsAreThatMonth(records: seq<FinancialRecord>, year: int, month: int)
    requires 1 <= month <= 12
    requires forall k :: 0 <= k < |records| ==> ValidDate(records[k].date)
    ensures MonthRecords(records, year, month)
            == Filter(records, (rec: FinancialRecord) => rec.date.year == year && rec.date.month == month)
  {
    forall k | 0 <= k < |records|
      ensures InWindow(records[k], year, month)
              <==> records[k].date.year == year && records[k].date.month == month
    {
      MonthWindow(records[k].date, year, month);
    }
    FilterCongruent(records, (rec: FinancialRecord) => InWindow(rec, year, month),
                    (rec: FinancialRecord) => rec.date.year == year && rec.date.month == month);
  }

  /** The last day of February is the 29th exactly in leap years. */
  lemma FebruaryWindow(year: int)
    ensures MonthEnd(year, 2).day == (if IsLeapYear(year) then 29 else 28)
  {
  }

  /** One month of `getMonthlyTrend`. */
  datatype MonthTrend = MonthTrend(year: int, month: int, summary: Summary)

  /** The months of an n-month trend ending at (year, month), oldest first. */
  function TrendMonths(n: nat, year: int, month: int): (r: seq<YearMonth>)
    requires 1 <= month <= 12
    ensures |r| == n
    ensures forall k :: 0 <= k < n ==> r[k] == MonthsBefore(year, month, n - 1 - k)
  {
    seq(n, k requires 0 <= k < n => MonthsBefore(year, month, n - 1 - k))
  }

  /** The trend's months are consecutive calendar months and end at the current month. */
  lemma TrendConsecutive(n: nat, year: int, month: int)
    requires 1 <= month <= 12
    ensures n > 0 ==> TrendMonths(n, year, month)[n - 1] == YearMonth(year, month)
    ensures forall k :: 0 <= k < n - 1 ==>
      NextMonth(TrendMonths(n, year, month)[k]) == TrendMonths(n, year, month)[k + 1]
  {
    if n > 0 {
      MonthsBeforeZero(year, month);
    }
    forall k | 0 <= k < n - 1
      ensures NextMonth(TrendMonths(n, year, month)[k]) == TrendMonths(n, year, month)[k + 1]
    {
      MonthsBeforeStep(year, month, n - 2 - k);
    }
  }

  /** A trend taken in January starts in the previous year when it spans two months. */
  lemma JanuaryTrend(year: int)
    ensures TrendMonths(2, year, 1) == [YearMonth(year - 1, 12), YearMonth(year, 1)]
  {
    YearRollover(year);
    MonthsBeforeZero(year, 1);
  }

  /** The financial hook: the store, the loaded records and their summary. */
  class FinancialView {
    const db: Database
    var records: seq<FinancialRecord>
    var summary: Summary

    constructor (db: Database)
      ensures this.db == db && records == [] && summary == InitialSummary
    {
      this.db := db;
      records := [];
      summary := InitialSummary;
    }

    /** Loads the records passing the filters and recomputes the summary; a failed read
        is reported and leaves both as they were. */
    method FetchRecords(f: Filters) returns (r: Result<(), Error>)
      modifies this`records, this`summary
      ensures r.Failure? ==> r.error == StoreFailed(ReadRecords)
                             && records == old(records) && summary == old(summary)
      ensures r.Success? ==> records == Filter(db.records, (rec: FinancialRecord) => Matches(f, rec))
                             && summary == Summarize(records)
    {
      var rows := db.SelectRecords((rec: FinancialRecord) => Matches(f, rec));
      if rows.None? {
        return Failure(StoreFailed(ReadRecords));
      }
      records := rows.value;
      summary := Summarize(records);
      r := Success(());
    }

    /** The summary of the records dated within the given calendar month. */
    method FetchMonthlySummary(year: int, month: int) returns (r: Result<Summary, Error>)
      requires 1 <= month <= 12
      ensures r.Failure? ==> r.error == StoreFailed(ReadRecords)
      ensures r.Success? ==> r.value == Summarize(MonthRecords(db.records, year, month))
    {
      var rows := db.SelectRecords((rec: FinancialRecord) => InWindow(rec, year, month));
      if rows.None? {
        return Failure(StoreFailed(ReadRecords));
      }
      r := Success(Summarize(rows.value));
    }

    /** The summaries of the last `months` calendar months, oldest first, ending at
        (todayYear, todayMonth); any failed month fails the whole trend. */
    method GetMonthlyTrend(months: int, todayYear: int, todayMonth: int) returns (r: Result<seq<MonthTrend>, Error>)
      requires 1 <= todayMonth <= 12
      ensures r.Failure? ==> r.error == StoreFailed(ReadRecords)
      ensures r.Success? ==> |r.value| == (if months > 0 then months else 0)
      ensures r.Success? ==> forall k :: 0 <= k < |r.value| ==>
        var ym := TrendMonths(|r.value|, todayYear, todayMonth)[k];
        r.value[k] == MonthTrend(ym.year, ym.month, Summarize(MonthRecords(db.records, ym.year, ym.month)))
    {
      var n: nat := if months > 0 then months else 0;
      var trends: seq<MonthTrend> := [];
      var i := n - 1;
      while i >= 0
        invariant -1 <= i <= n - 1
        invariant |trends| == n - 1 - i
        invariant forall k :: 0 <= k < |trends| ==>
          var ym := TrendMonths(n, todayYear, todayMonth)[k];
          trends[k] == MonthTrend(ym.year, ym.month, Summarize(MonthRecords(db.records, ym.year, ym.month)))
      {
        var ym := MonthsBefore(todayYear, todayMonth, i);
        var monthly := FetchMonthlySummary(ym.year, ym.month);
        if monthly.Failure? {
          return Failure(monthly.error);
        }
        trends := trends + [MonthTrend(ym.year, ym.month, monthly.value)];
        i := i - 1;
      }
      r := Success(trends);
    }
  }
}

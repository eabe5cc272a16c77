/**
 * groupTransactionsByMonth and groupTransactionsByDay: the month-by-month and
 * day-by-day series behind the analytics charts.
 */
module Analytics {
  import opened Common
  import opened Calendar
  import opened Ledger

  /** One month of the comparison chart; `year` and `month` give its "MMM yyyy" label. */
  datatype MonthlyData = MonthlyData(
    year: int,
    month: int,
    income: real,
    expenses: real,
    savings: real,
    savingsRate: real)

  /** The bucket of month index `k`. */
  function MonthBucket(txs: seq<Transaction>, k: int): (b: MonthlyData)
    ensures b.year * 12 + b.month - 1 == k
  {
    var income := Total(txs, Month(k), IncomeSide);
    var expenses := Total(txs, Month(k), ExpenseSide);
    MonthlyData(YearOfMonthIndex(k), MonthOfMonthIndex(k), income, expenses,
                income - expenses, SavingsRate(income, expenses))
  }

  /** Index of the oldest of the `count` months ending with the month of `now`. */
  function FirstMonth(now: Date, count: int): int
  {
    MonthIndex(now) - count + 1
  }

  /** The `count` month buckets ending with the current month, oldest first. */
  function MonthlySeries(txs: seq<Transaction>, now: Date, count: nat): (r: seq<MonthlyData>)
    ensures |r| == count
    ensures forall i :: 0 <= i < count ==>
      r[i].year * 12 + r[i].month - 1 == FirstMonth(now, count) + i
    ensures count > 0 ==> r[count - 1].year == now.year && r[count - 1].month == now.month
  {
    var r := seq(count, i => MonthBucket(txs, FirstMonth(now, count) + i));
    assert forall i :: 0 <= i < count ==> r[i] == MonthBucket(txs, FirstMonth(now, count) + i);
    MonthIndexLabel(now);
    r
  }

  lemma MonthlySeriesAt(txs: seq<Transaction>, now: Date, count: nat, i: int)
    requires 0 <= i < count
    ensures MonthlySeries(txs, now, count)[i] == MonthBucket(txs, FirstMonth(now, count) + i)
  {
  }

  method GroupTransactionsByMonth(txs: seq<Transaction>, now: Date, monthsCount: int)
    returns (r: seq<MonthlyData>)
    requires monthsCount >= 1
    ensures r == MonthlySeries(txs, now, monthsCount)
  {
    var first := FirstMonth(now, monthsCount);
    r := [];
    var m := 0;
    while m < monthsCount
      invariant 0 <= m <= monthsCount
      invariant |r| == m
      invariant forall j :: 0 <= j < m ==> r[j] == MonthBucket(txs, first + j)
    {
      var monthDate := first + m;
      var income, expenses := 0.0, 0.0;
      for i := 0 to |txs|
        invariant income == Total(txs[..i], Month(monthDate), IncomeSide)
        invariant expenses == Total(txs[..i], Month(monthDate), ExpenseSide)
      {
        var transaction := txs[i];
        assert txs[..i + 1][..i] == txs[..i];
        if MonthIndex(transaction.date) == monthDate {
          if IsIncome(transaction) {
            income := income + transaction.amount;
          } else {
            expenses := expenses + transaction.amount;
          }
        }
      }
      assert txs[..|txs|] == txs;
      var savings := income - expenses;
      var savingsRate := if income > 0.0 then savings / income * 100.0 else 0.0;
      r := r + [MonthlyData(YearOfMonthIndex(monthDate), MonthOfMonthIndex(monthDate),
                            income, expenses, savings, savingsRate)];
      m := m + 1;
    }
  }

  function SumMonthlyIncome(r: seq<MonthlyData>): real
  {
    if r == [] then 0.0 else SumMonthlyIncome(r[..|r| - 1]) + r[|r| - 1].income
  }

  function SumMonthlyExpenses(r: seq<MonthlyData>): real
  {
    if r == [] then 0.0 else SumMonthlyExpenses(r[..|r| - 1]) + r[|r| - 1].expenses
  }

  /**
   * Month buckets are disjoint and cover the window: together they hold the
   * income and the expenses of exactly the rows dated in the window.
   */
  lemma {:induction false} MonthlySeriesCoversWindow(txs: seq<Transaction>, now: Date, count: nat)
    requires count >= 1
    ensures SumMonthlyIncome(MonthlySeries(txs, now, count))
         == Total(txs, Span(Months, FirstMonth(now, count), MonthIndex(now)), IncomeSide)
    ensures SumMonthlyExpenses(MonthlySeries(txs, now, count))
         == Total(txs, Span(Months, FirstMonth(now, count), MonthIndex(now)), ExpenseSide)
  {
    var first := FirstMonth(now, count);
    var r := MonthlySeries(txs, now, count);
    TotalOutsideScope(txs, Span(Months, first, first - 1), IncomeSide);
    TotalOutsideScope(txs, Span(Months, first, first - 1), ExpenseSide);
    assert r[..0] == [];
    for n := 0 to count
      invariant SumMonthlyIncome(r[..n]) == Total(txs, Span(Months, first, first + n - 1), IncomeSide)
      invariant SumMonthlyExpenses(r[..n]) == Total(txs, Span(Months, first, first + n - 1), ExpenseSide)
    {
      assert r[..n + 1][..n] == r[..n];
      MonthlySeriesAt(txs, now, count, n);
      TotalSpanSplit(txs, Months, first, first + n, IncomeSide);
      TotalSpanSplit(txs, Months, first, first + n, ExpenseSide);
    }
    assert r[..count] == r;
  }

  /** Each bucket sums exactly its own month; its savings figures follow from its totals. */
  lemma MonthBucketMeaning(txs: seq<Transaction>, now: Date, count: nat, i: int)
    requires 0 <= i < count
    ensures var b := MonthlySeries(txs, now, count)[i];
      b.income == Total(txs, Month(FirstMonth(now, count) + i), IncomeSide)
      && b.expenses == Total(txs, Month(FirstMonth(now, count) + i), ExpenseSide)
      && b.savings == b.income - b.expenses
      && (b.income <= 0.0 ==> b.savingsRate == 0.0)
  {
  }

  // ---------------------------------------------------------------------
  // Daily series

  const MsPerDay: int := 86_400_000

  /** The clock: a calendar day and the milliseconds elapsed since its midnight. */
  datatype Moment = Moment(date: Date, msOfDay: int)

  function Instant(m: Moment): int
  {
    DayNumber(m.date) * 86_400_000 + m.msOfDay
  }

  /** parseISO("YYYY-MM-DD") is the local midnight of that day. */
  function Midnight(day: int): int
  {
    day * 86_400_000
  }

  datatype DayTotals = DayTotals(income: real, expenses: real)

  /** One day of the trends chart; `day` is the DayNumber of its calendar date. */
  datatype DailyData = DailyData(day: int, income: real, expenses: real)

  /**
   * Whether the rows dated `day` pass the source's window test
   * `transDate >= subDays(now, days) && transDate <= now`.
   */
  predicate DayCounted(day: int, now: Moment, days: int)
  {
    Instant(now) - days * 86_400_000 <= Midnight(day) <= Instant(now)
  }

  function DayBucket(txs: seq<Transaction>, now: Moment, days: int, day: int): (b: DailyData)
    ensures b.day == day
  {
    if DayCounted(day, now, days)
    then DailyData(day, Total(txs, Day(day), IncomeSide), Total(txs, Day(day), ExpenseSide))
    else DailyData(day, 0.0, 0.0)
  }

  /** `days + 1` buckets, one per calendar day from `days` days ago up to today, oldest first. */
  function DailySeries(txs: seq<Transaction>, now: Moment, days: int): (r: seq<DailyData>)
    ensures |r| == if days >= 0 then days + 1 else 0
    ensures forall i :: 0 <= i < |r| ==> r[i].day == DayNumber(now.date) - days + i
  {
    if days < 0 then []
    else
      var r := seq(days + 1, i => DayBucket(txs, now, days, DayNumber(now.date) - days + i));
      assert forall i :: 0 <= i <= days ==> r[i] == DayBucket(txs, now, days, DayNumber(now.date) - days + i);
      r
  }

  lemma DailySeriesAt(txs: seq<Transaction>, now: Moment, days: int, i: int)
    requires 0 <= i <= days
    ensures DailySeries(txs, now, days)[i] == DayBucket(txs, now, days, DayNumber(now.date) - days + i)
  {
  }

  /** The date map's entries at the end of the row scan: the totals of a counted day, zero otherwise. */
  ghost predicate FilledDays(dateMap: map<int, DayTotals>, txs: seq<Transaction>, now: Moment, days: int)
  {
    && (forall k :: k in dateMap <==> DayNumber(now.date) - days <= k <= DayNumber(now.date))
    && (forall k :: k in dateMap ==>
          dateMap[k] == if DayCounted(k, now, days)
                        then DayTotals(Total(txs, Day(k), IncomeSide), Total(txs, Day(k), ExpenseSide))
                        else DayTotals(0.0, 0.0))
  }

  /** The first loop: a zero entry for each of the days from today back to `days` days ago. */
  method EmptyDayMap(today: int, days: int) returns (dateMap: map<int, DayTotals>)
    ensures forall k :: k in dateMap <==> today - days <= k <= today
    ensures forall k :: k in dateMap ==> dateMap[k] == DayTotals(0.0, 0.0)
  {
    dateMap := map[];
    var i := 0;
    while i <= days
      invariant days >= 0 ==> 0 <= i <= days + 1
      invariant days < 0 ==> i == 0
      invariant forall k :: k in dateMap <==> today - i < k <= today
      invariant forall k :: k in dateMap ==> dateMap[k] == DayTotals(0.0, 0.0)
    {
      dateMap := dateMap[today - i := DayTotals(0.0, 0.0)];
      i := i + 1;
    }
  }

  /** The second loop: each row dated inside the window is added to its day's entry. */
  method AddRowsToDays(txs: seq<Transaction>, now: Moment, days: int, empty: map<int, DayTotals>)
    returns (dateMap: map<int, DayTotals>)
    requires FilledDays(empty, [], now, days)
    ensures FilledDays(dateMap, txs, now, days)
  {
    var nowInstant := Instant(now);
    var startDate := nowInstant - days * 86_400_000;
    dateMap := empty;
    for j := 0 to |txs|
      invariant FilledDays(dateMap, txs[..j], now, days)
    {
      var transaction := txs[j];
      assert txs[..j + 1][..j] == txs[..j];
      var transDate := Midnight(DayNumber(transaction.date));
      if startDate <= transDate && transDate <= nowInstant {
        var dateStr := DayNumber(transaction.date);
        if dateStr in dateMap {
          var existing := dateMap[dateStr];
          if IsIncome(transaction) {
            dateMap := dateMap[dateStr := existing.(income := existing.income + transaction.amount)];
          } else {
            dateMap := dateMap[dateStr := existing.(expenses := existing.expenses + transaction.amount)];
          }
        }
      }
    }
    assert txs[..|txs|] == txs;
  }

  method GroupTransactionsByDay(txs: seq<Transaction>, now: Moment, days: int)
    returns (r: seq<DailyData>)
    ensures r == DailySeries(txs, now, days)
  {
    var today := DayNumber(now.date);
    var dateMap := EmptyDayMap(today, days);
    dateMap := AddRowsToDays(txs, now, days, dateMap);

    // The map holds the days newest first; the series is reversed to oldest first.
    r := [];
    var n := days;
    while n >= 0
      invariant days >= 0 ==> -1 <= n <= days
      invariant days < 0 ==> n == days
      invariant |r| == days - n
      invariant forall p :: 0 <= p < |r| ==> r[p] == DayBucket(txs, now, days, today - days + p)
    {
      var data := dateMap[today - n];
      r := r + [DailyData(today - n, data.income, data.expenses)];
      n := n - 1;
    }
    forall p | 0 <= p < |r|
      ensures r[p] == DailySeries(txs, now, days)[p]
    {
      DailySeriesAt(txs, now, days, p);
    }
  }

  /** Rows dated after today, or before the window, leave every bucket unchanged. */
  lemma OutOfWindowRowIgnored(txs: seq<Transaction>, t: Transaction, now: Moment, days: int)
    requires !DayCounted(DayNumber(t.date), now, days)
    ensures DailySeries(txs + [t], now, days) == DailySeries(txs, now, days)
  {
    assert (txs + [t])[..|txs|] == txs;
    var after, before := DailySeries(txs + [t], now, days), DailySeries(txs, now, days);
    forall i | 0 <= i < |before|
      ensures after[i] == before[i]
    {
      DailySeriesAt(txs, now, days, i);
      DailySeriesAt(txs + [t], now, days, i);
    }
  }

  /** A day no row is dated on still has its bucket, with zero income and expenses. */
  lemma DailySeriesIsDense(txs: seq<Transaction>, now: Moment, days: int, i: int)
    requires 0 <= i <= days
    requires forall t :: t in txs ==> DayNumber(t.date) != DayNumber(now.date) - days + i
    ensures DailySeries(txs, now, days)[i] == DailyData(DayNumber(now.date) - days + i, 0.0, 0.0)
  {
    var day := DayNumber(now.date) - days + i;
    TotalOutsideScope(txs, Day(day), IncomeSide);
    TotalOutsideScope(txs, Day(day), ExpenseSide);
    DailySeriesAt(txs, now, days, i);
  }

  /**
   * Today's bucket always counts; the oldest bucket counts only when `now`
   * is exactly midnight, because the window starts at the time of day of
   * `now` while dates parse to midnight.
   */
  lemma WindowEdges(now: Moment, days: int)
    requires 0 <= now.msOfDay < MsPerDay
    requires days >= 1
    ensures DayCounted(DayNumber(now.date), now, days)
    ensures DayCounted(DayNumber(now.date) - days, now, days) <==> now.msOfDay == 0
    ensures forall d :: DayNumber(now.date) - days < d <= DayNumber(now.date) ==> DayCounted(d, now, days)
    ensures forall d :: DayCounted(d, now, days) ==> DayNumber(now.date) - days <= d <= DayNumber(now.date)
  {
  }

  function SumDailyIncome(r: seq<DailyData>): real
  {
    if r == [] then 0.0 else SumDailyIncome(r[..|r| - 1]) + r[|r| - 1].income
  }

  function SumDailyExpenses(r: seq<DailyData>): real
  {
    if r == [] then 0.0 else SumDailyExpenses(r[..|r| - 1]) + r[|r| - 1].expenses
  }

  /**
   * Each counted row lands in exactly one bucket: the bucket incomes and
   * expenses add up to the income and the expenses of the rows dated inside
   * the window (from the first counted day up to today).
   */
  lemma {:induction false} DailySeriesCoversWindow(txs: seq<Transaction>, now: Moment, days: int)
    requires 0 <= now.msOfDay < MsPerDay
    requires days >= 1
    ensures var first := if now.msOfDay == 0 then DayNumber(now.date) - days else DayNumber(now.date) - days + 1;
      SumDailyIncome(DailySeries(txs, now, days)) == Total(txs, Span(Days, first, DayNumber(now.date)), IncomeSide)
    ensures var first := if now.msOfDay == 0 then DayNumber(now.date) - days else DayNumber(now.date) - days + 1;
      SumDailyExpenses(DailySeries(txs, now, days)) == Total(txs, Span(Days, first, DayNumber(now.date)), ExpenseSide)
  {
    var today := DayNumber(now.date);
    var oldest := today - days;
    var first := if now.msOfDay == 0 then oldest else oldest + 1;
    var r := DailySeries(txs, now, days);
    WindowEdges(now, days);
    TotalOutsideScope(txs, Span(Days, first, oldest - 1), IncomeSide);
    TotalOutsideScope(txs, Span(Days, first, oldest - 1), ExpenseSide);
    assert r[..0] == [];
    for n := 0 to days + 1
      invariant SumDailyIncome(r[..n]) == Total(txs, Span(Days, first, oldest + n - 1), IncomeSide)
      invariant SumDailyExpenses(r[..n]) == Total(txs, Span(Days, first, oldest + n - 1), ExpenseSide)
    {
      assert r[..n + 1][..n] == r[..n];
      DailySeriesAt(txs, now, days, n);
      if oldest + n < first {
        // The oldest day does not count: its bucket is zero and the span is still empty.
        TotalOutsideScope(txs, Span(Days, first, oldest + n), IncomeSide);
        TotalOutsideScope(txs, Span(Days, first, oldest + n), ExpenseSide);
      } else {
        TotalSpanSplit(txs, Days, first, oldest + n, IncomeSide);
        TotalSpanSplit(txs, Days, first, oldest + n, ExpenseSide);
      }
    }
    assert r[..days + 1] == r;
  }
}

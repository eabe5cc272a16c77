/**
 * calculateDashboardStats: one pass over the ledger computing the all-time
 * balance, this month's and last month's income and expenses, and the
 * savings rate with its change since last month.
 */
module Dashboard {
  import opened Common
  import opened Calendar
  import opened Ledger

  /** The rates are kept as numbers; the source formats them with toFixed(2). */
  datatype DashboardStats = DashboardStats(
    balance: real,
    monthlyIncome: real,
    monthlyExpenses: real,
    monthlySavings: real,
    savingsRateChange: real)

  /** What the dashboard shows for a ledger on the day `now`. */
  function Stats(txs: seq<Transaction>, now: Date): DashboardStats
  {
    var current := MonthIndex(now);
    var income := Total(txs, Month(current), IncomeSide);
    var expenses := Total(txs, Month(current), ExpenseSide);
    var rate := SavingsRate(income, expenses);
    var prevRate := SavingsRate(Total(txs, Month(current - 1), IncomeSide),
                                Total(txs, Month(current - 1), ExpenseSide));
    DashboardStats(
      Total(txs, AllTime, IncomeSide) - Total(txs, AllTime, ExpenseSide),
      income, expenses, rate, rate - prevRate)
  }

  method CalculateDashboardStats(txs: seq<Transaction>, now: Date) returns (stats: DashboardStats)
    ensures stats == Stats(txs, now)
  {
    var monthStart := MonthIndex(now);
    var prevMonth := monthStart - 1;
    var totalIncome, totalExpenses := 0.0, 0.0;
    var monthlyIncome, monthlyExpenses := 0.0, 0.0;
    var prevMonthIncome, prevMonthExpenses := 0.0, 0.0;
    for i := 0 to |txs|
      invariant totalIncome == Total(txs[..i], AllTime, IncomeSide)
      invariant totalExpenses == Total(txs[..i], AllTime, ExpenseSide)
      invariant monthlyIncome == Total(txs[..i], Month(monthStart), IncomeSide)
      invariant monthlyExpenses == Total(txs[..i], Month(monthStart), ExpenseSide)
      invariant prevMonthIncome == Total(txs[..i], Month(prevMonth), IncomeSide)
      invariant prevMonthExpenses == Total(txs[..i], Month(prevMonth), ExpenseSide)
    {
      var transaction := txs[i];
      var amount := transaction.amount;
      var date := MonthIndex(transaction.date);
      var isIncome := IsIncome(transaction);
      assert txs[..i + 1][..i] == txs[..i];
      if isIncome {
        totalIncome := totalIncome + amount;
      } else {
        totalExpenses := totalExpenses + amount;
      }
      if date == monthStart {
        if isIncome {
          monthlyIncome := monthlyIncome + amount;
        } else {
          monthlyExpenses := monthlyExpenses + amount;
        }
      } else if date == prevMonth {
        if isIncome {
          prevMonthIncome := prevMonthIncome + amount;
        } else {
          prevMonthExpenses := prevMonthExpenses + amount;
        }
      }
    }
    assert txs[..|txs|] == txs;
    var balance := totalIncome - totalExpenses;
    var savingsRate := if monthlyIncome > 0.0 then (monthlyIncome - monthlyExpenses) / monthlyIncome * 100.0 else 0.0;
    var prevSavingsRate := if prevMonthIncome > 0.0 then (prevMonthIncome - prevMonthExpenses) / prevMonthIncome * 100.0 else 0.0;
    stats := DashboardStats(balance, monthlyIncome, monthlyExpenses, savingsRate, savingsRate - prevSavingsRate);
  }

  // ---------------------------------------------------------------------
  // Properties

  /** Every figure, the balance included, is independent of the order of the ledger. */
  lemma StatsOrderIndependent(a: seq<Transaction>, b: seq<Transaction>, now: Date)
    requires multiset(a) == multiset(b)
    ensures Stats(a, now) == Stats(b, now)
  {
    var c := MonthIndex(now);
    forall scope | scope in [AllTime, Month(c), Month(c - 1)]
      ensures Total(a, scope, IncomeSide) == Total(b, scope, IncomeSide)
      ensures Total(a, scope, ExpenseSide) == Total(b, scope, ExpenseSide)
    {
      TotalPermutation(a, b, scope, IncomeSide);
      TotalPermutation(a, b, scope, ExpenseSide);
    }
  }

  /**
   * One more row changes the balance by its amount: added when its type is
   * "income", subtracted for every other type.
   */
  lemma BalanceAfterAppend(txs: seq<Transaction>, t: Transaction, now: Date)
    ensures IsIncome(t) ==> Stats(txs + [t], now).balance == Stats(txs, now).balance + t.amount
    ensures !IsIncome(t) ==> Stats(txs + [t], now).balance == Stats(txs, now).balance - t.amount
  {
    assert (txs + [t])[..|txs|] == txs;
  }

  /**
   * The current-month and previous-month figures never share a row: together
   * they are exactly the totals of the two-month span.
   */
  lemma MonthBucketsExclusive(txs: seq<Transaction>, now: Date, side: Side)
    ensures Total(txs, Month(MonthIndex(now)), side) + Total(txs, Month(MonthIndex(now) - 1), side)
         == Total(txs, Span(Months, MonthIndex(now) - 1, MonthIndex(now)), side)
  {
    var c := MonthIndex(now);
    TotalSpanSplit(txs, Months, c - 1, c, side);
  }

  /** A row dated outside this month and last month changes the balance and nothing else. */
  lemma OtherMonthsOnlyMoveBalance(txs: seq<Transaction>, t: Transaction, now: Date)
    requires MonthIndex(t.date) != MonthIndex(now) && MonthIndex(t.date) != MonthIndex(now) - 1
    ensures var before, after := Stats(txs, now), Stats(txs + [t], now);
      after == before.(balance := after.balance)
      && after.balance == before.balance + (if IsIncome(t) then t.amount else -t.amount)
  {
    assert (txs + [t])[..|txs|] == txs;
  }

  lemma EmptyLedger(now: Date)
    ensures Stats([], now) == DashboardStats(0.0, 0.0, 0.0, 0.0, 0.0)
  {
  }

  /** Income 50000 and an expense of 20000 this month: balance 30000, savings rate 60. */
  lemma JanuaryExample()
    ensures var now := Ymd(2024, 1, 20);
      var income := Transaction("a", "income", 50000.0, Ymd(2024, 1, 5), None, None, Some("salary"), None, Some(false));
      var expense := Transaction("b", "expense", 20000.0, Ymd(2024, 1, 10), Some("bills"), None, None, Some("card"), Some(false));
      Stats([income, expense], now) == DashboardStats(30000.0, 50000.0, 20000.0, 60.0, 60.0)
  {
    var income := Transaction("a", "income", 50000.0, Ymd(2024, 1, 5), None, None, Some("salary"), None, Some(false));
    var expense := Transaction("b", "expense", 20000.0, Ymd(2024, 1, 10), Some("bills"), None, None, Some("card"), Some(false));
    assert [income, expense][..1] == [income];
    TotalSingle(income, AllTime, IncomeSide);
    TotalSingle(income, AllTime, ExpenseSide);
    TotalSingle(income, Month(MonthIndex(Ymd(2024, 1, 20))), IncomeSide);
    TotalSingle(income, Month(MonthIndex(Ymd(2024, 1, 20))), ExpenseSide);
    TotalSingle(income, Month(MonthIndex(Ymd(2024, 1, 20)) - 1), IncomeSide);
    TotalSingle(income, Month(MonthIndex(Ymd(2024, 1, 20)) - 1), ExpenseSide);
  }
}

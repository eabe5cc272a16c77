/**
 * The transaction ledger: rows of the `transactions` table and the one sum
 * every calculation in the dashboard is built from.
 */
module Ledger {
  import opened Common
  import opened Calendar

  /** TransactionType.INCOME; any other type is treated as an expense. */
  const IncomeType: string := "income"
  const ExpenseType: string := "expense"

  /** A row of the `transactions` table (user_id and the timestamps are left out). */
  datatype Transaction = Transaction(
    id: string,
    kind: string,
    amount: real,
    date: Date,
    category: Option<string>,
    description: Option<string>,
    source: Option<string>,
    paymentMethod: Option<string>,
    isRecurring: Option<bool>)

  /** A row to insert (TransactionInsert without user_id); the store assigns the id and parses the date. */
  datatype Draft = Draft(
    kind: string,
    amount: real,
    date: string,
    category: Option<string>,
    description: Option<string>,
    source: Option<string>,
    paymentMethod: Option<string>,
    isRecurring: bool)

  /** The row the store keeps for an inserted draft, or None when it rejects the date. */
  function Store(d: Draft, id: string): (r: Option<Transaction>)
    ensures r.Some? <==> ParseIsoDate(d.date).Some?
    ensures r.Some? ==> r.value.id == id && r.value.kind == d.kind && r.value.amount == d.amount
    ensures r.Some? ==> Some(r.value.date) == ParseIsoDate(d.date) && r.value.isRecurring == Some(d.isRecurring)
  {
    match ParseIsoDate(d.date)
    case None => None
    case Some(date) =>
      Some(Transaction(id, d.kind, d.amount, date, d.category, d.description,
                       d.source, d.paymentMethod, Some(d.isRecurring)))
  }

  predicate IsIncome(t: Transaction)
  {
    t.kind == IncomeType
  }

  /** Which running total a transaction feeds: income, or everything else. */
  datatype Side = IncomeSide | ExpenseSide

  function SideOf(t: Transaction): Side
  {
    if IsIncome(t) then IncomeSide else ExpenseSide
  }

  /** The dates a total ranges over: all of them, or a range of months or of days. */
  datatype Unit = Months | Days
  datatype Scope = AllTime | Span(unit: Unit, first: int, last: int)

  function Month(k: int): Scope { Span(Months, k, k) }
  function Day(n: int): Scope { Span(Days, n, n) }

  function Key(d: Date, u: Unit): int
  {
    match u
    case Months => MonthIndex(d)
    case Days => DayNumber(d)
  }

  predicate InScope(t: Transaction, scope: Scope)
  {
    match scope
    case AllTime => true
    case Span(u, first, last) => first <= Key(t.date, u) <= last
  }

  function Part(t: Transaction, scope: Scope, side: Side): real
  {
    if InScope(t, scope) && SideOf(t) == side then t.amount else 0.0
  }

  /** The sum of the amounts on one side within a scope. */
  function Total(txs: seq<Transaction>, scope: Scope, side: Side): real
  {
    if txs == [] then 0.0
    else Total(txs[..|txs| - 1], scope, side) + Part(txs[|txs| - 1], scope, side)
  }

  /** `income > 0 ? (income - expenses) / income * 100 : 0`. */
  function SavingsRate(income: real, expenses: real): real
  {
    if income > 0.0 then (income - expenses) / income * 100.0 else 0.0
  }

  lemma SavingsRateBounds(income: real, expenses: real)
    ensures income <= 0.0 ==> SavingsRate(income, expenses) == 0.0
    ensures income > 0.0 && expenses >= 0.0 ==> SavingsRate(income, expenses) <= 100.0
    ensures income > 0.0 && expenses <= income ==> SavingsRate(income, expenses) >= 0.0
    ensures income > 0.0 && expenses == 0.0 ==> SavingsRate(income, expenses) == 100.0
    ensures income > 0.0 ==> (SavingsRate(income, expenses) == 0.0 <==> expenses == income)
  {
    if income > 0.0 {
      var q := (income - expenses) / income;
      assert q * income == income - expenses;
      if expenses >= 0.0 {
        assert q <= 1.0 by {
          if q > 1.0 { assert q * income > income; }
        }
      }
      if expenses <= income {
        assert q >= 0.0;
      }
    }
  }

  // ---------------------------------------------------------------------
  // Properties of Total

  lemma {:induction false} TotalAppend(a: seq<Transaction>, b: seq<Transaction>, scope: Scope, side: Side)
    ensures Total(a + b, scope, side) == Total(a, scope, side) + Total(b, scope, side)
  {
    if b == [] {
      assert a + b == a;
    } else {
      var n := |b| - 1;
      assert (a + b)[..|a + b| - 1] == a + b[..n];
      TotalAppend(a, b[..n], scope, side);
    }
  }

  lemma TotalSingle(t: Transaction, scope: Scope, side: Side)
    ensures Total([t], scope, side) == Part(t, scope, side)
  {
    assert [t][..0] == [];
  }

  /** Taking one row out of the ledger takes its part out of the total. */
  lemma TotalRemove(a: seq<Transaction>, k: int, scope: Scope, side: Side)
    requires 0 <= k < |a|
    ensures Total(a, scope, side) == Total(a[..k] + a[k + 1..], scope, side) + Part(a[k], scope, side)
  {
    assert a == (a[..k] + [a[k]]) + a[k + 1..];
    TotalAppend(a[..k] + [a[k]], a[k + 1..], scope, side);
    TotalAppend(a[..k], [a[k]], scope, side);
    TotalAppend(a[..k], a[k + 1..], scope, side);
    TotalSingle(a[k], scope, side);
  }

  lemma MultisetRemove<T>(a: seq<T>, k: int)
    requires 0 <= k < |a|
    ensures multiset(a[..k] + a[k + 1..]) == multiset(a) - multiset{a[k]}
  {
    assert a == a[..k] + [a[k]] + a[k + 1..];
  }

  /** Sums do not depend on the order of the ledger. */
  lemma {:induction false} TotalPermutation(a: seq<Transaction>, b: seq<Transaction>, scope: Scope, side: Side)
    requires multiset(a) == multiset(b)
    ensures Total(a, scope, side) == Total(b, scope, side)
    decreases |b|
  {
    if b != [] {
      var n := |b| - 1;
      var k := IndexOf(a, b[n]);
      var a', b' := a[..k] + a[k + 1..], b[..n];
      MultisetRemove(a, k);
      MultisetRemove(b, n);
      assert b[..n] + b[n + 1..] == b';
      TotalPermutation(a', b', scope, side);
      TotalRemove(a, k, scope, side);
    }
  }

  /** A position of `x`, for a row known to be in `a`. */
  ghost function IndexOf(a: seq<Transaction>, x: Transaction): (k: int)
    requires x in multiset(a)
    ensures 0 <= k < |a| && a[k] == x
  {
    if a[0] == x then 0 else IndexOf(a[1..], x) + 1
  }

  /** A span of units is the span without its last unit plus that unit: no row is counted twice. */
  lemma {:induction false} TotalSpanSplit(txs: seq<Transaction>, u: Unit, first: int, last: int, side: Side)
    requires first <= last
    ensures Total(txs, Span(u, first, last), side)
         == Total(txs, Span(u, first, last - 1), side) + Total(txs, Span(u, last, last), side)
  {
    if txs != [] {
      TotalSpanSplit(txs[..|txs| - 1], u, first, last, side);
    }
  }

  /** A scope no row falls into sums to zero. */
  lemma {:induction false} TotalOutsideScope(txs: seq<Transaction>, scope: Scope, side: Side)
    requires forall t :: t in txs ==> !InScope(t, scope)
    ensures Total(txs, scope, side) == 0.0
  {
    if txs != [] {
      TotalOutsideScope(txs[..|txs| - 1], scope, side);
    }
  }
}

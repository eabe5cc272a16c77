/**
 * checkAndCreateRecurringTransactions with the database calls replaced by
 * values: which copies of the recurring rows to create this month, the
 * count it returns and its error policy, and the 30-minute throttle.
 */
module Recurring {
  import opened Common
  import opened Calendar
  import opened Ledger

  /** The match key of the duplicate check; source and payment method are not part of it. */
  datatype MatchKey = MatchKey(description: Option<string>, category: Option<string>, amount: real, kind: string)

  function MatchKeyOf(t: Transaction): MatchKey
  {
    MatchKey(t.description, t.category, t.amount, t.kind)
  }

  function DraftMatchKey(d: Draft): MatchKey
  {
    MatchKey(d.description, d.category, d.amount, d.kind)
  }

  /** Some row of this month's rows has the same match key. */
  predicate HasSimilar(current: seq<Transaction>, t: Transaction)
  {
    exists c :: c in current && MatchKeyOf(c) == MatchKeyOf(t)
  }

  /** At least one whole month old (differenceInMonths(now, date) >= 1). */
  predicate IsDue(t: Transaction, now: Date)
  {
    MonthsBetween(now, t.date) >= 1
  }

  /** The row created for a recurring row: same fields, dated today, flagged recurring. */
  function CopyOf(t: Transaction, now: Date): (d: Draft)
    ensures DraftMatchKey(d) == MatchKeyOf(t)
  {
    Draft(t.kind, t.amount, IsoDate(now), t.category, t.description, t.source, t.paymentMethod, true)
  }

  /** The copies to create, in the order of the recurring rows. */
  function Copies(recurring: seq<Transaction>, current: seq<Transaction>, now: Date): seq<Draft>
  {
    if recurring == [] then []
    else
      var t := recurring[|recurring| - 1];
      Copies(recurring[..|recurring| - 1], current, now)
      + (if IsDue(t, now) && !HasSimilar(current, t) then [CopyOf(t, now)] else [])
  }

  /** The selection loop of the source. */
  method SelectCopies(recurringTransactions: seq<Transaction>, currentMonthTransactions: seq<Transaction>, now: Date)
    returns (transactionsToCreate: seq<Draft>)
    ensures transactionsToCreate == Copies(recurringTransactions, currentMonthTransactions, now)
  {
    transactionsToCreate := [];
    for i := 0 to |recurringTransactions|
      invariant transactionsToCreate == Copies(recurringTransactions[..i], currentMonthTransactions, now)
    {
      var recurringTx := recurringTransactions[i];
      assert recurringTransactions[..i + 1][..i] == recurringTransactions[..i];
      var monthsDifference := MonthsBetween(now, recurringTx.date);
      if monthsDifference < 1 {
        continue;
      }
      var hasSimilarInCurrentMonth := exists tx :: (tx in currentMonthTransactions
                                                    && tx.description == recurringTx.description
                                                    && tx.category == recurringTx.category
                                                    && tx.amount == recurringTx.amount
                                                    && tx.kind == recurringTx.kind);
      if !hasSimilarInCurrentMonth {
        transactionsToCreate := transactionsToCreate + [Draft(
          recurringTx.kind,
          recurringTx.amount,
          IsoDate(now),
          recurringTx.category,
          recurringTx.description,
          recurringTx.source,
          recurringTx.paymentMethod,
          true)];
      }
    }
    assert recurringTransactions[..|recurringTransactions|] == recurringTransactions;
  }

  /** The rows of `.eq("is_recurring", true)`. */
  function RecurringRows(ledger: seq<Transaction>): (r: seq<Transaction>)
    ensures forall t :: t in r <==> t in ledger && t.isRecurring == Some(true)
  {
    if ledger == [] then []
    else
      var t := ledger[|ledger| - 1];
      RecurringRows(ledger[..|ledger| - 1]) + (if t.isRecurring == Some(true) then [t] else [])
  }

  /** The rows dated between the start and the end of the current month. */
  function CurrentMonthRows(ledger: seq<Transaction>, now: Date): (r: seq<Transaction>)
    ensures forall t :: t in r <==> t in ledger && MonthIndex(t.date) == MonthIndex(now)
  {
    if ledger == [] then []
    else
      var t := ledger[|ledger| - 1];
      CurrentMonthRows(ledger[..|ledger| - 1], now) + (if MonthIndex(t.date) == MonthIndex(now) then [t] else [])
  }

  /** Which of the store calls fail: the user lookup, the two fetches and the bulk insert. */
  datatype Faults = Faults(noUser: bool, fetchError: bool, currentMonthError: bool, insertError: bool)

  predicate AnyFault(f: Faults)
  {
    f.noUser || f.fetchError || f.currentMonthError || f.insertError
  }

  /**
   * One run against the user's ledger. Returns the number of rows created and
   * the rows the store received; every error is swallowed and yields 0.
   */
  method CheckAndCreateRecurringTransactions(ledger: seq<Transaction>, now: Date, faults: Faults)
    returns (count: nat, inserted: seq<Draft>)
    ensures var copies := Copies(RecurringRows(ledger), CurrentMonthRows(ledger, now), now);
      if AnyFault(faults) then count == 0 && inserted == []
      else count == |copies| && inserted == copies
  {
    count, inserted := 0, [];
    if faults.noUser || faults.fetchError {
      return;
    }
    var recurringTransactions := RecurringRows(ledger);
    if |recurringTransactions| == 0 {
      return;
    }
    if faults.currentMonthError {
      return;
    }
    var currentMonthTransactions := CurrentMonthRows(ledger, now);
    var transactionsToCreate := SelectCopies(recurringTransactions, currentMonthTransactions, now);
    if |transactionsToCreate| > 0 {
      if faults.insertError {
        return;
      }
      inserted := transactionsToCreate;
    } else if faults.insertError {
      // The insert is never attempted; the result is 0 either way.
      return;
    }
    count := |transactionsToCreate|;
  }

  // ---------------------------------------------------------------------
  // Properties of the selection

  lemma {:induction false} CopiesAppend(a: seq<Transaction>, b: seq<Transaction>, current: seq<Transaction>, now: Date)
    ensures Copies(a + b, current, now) == Copies(a, current, now) + Copies(b, current, now)
  {
    if b == [] {
      assert a + b == a;
    } else {
      assert (a + b)[..|a + b| - 1] == a + b[..|b| - 1];
      CopiesAppend(a, b[..|b| - 1], current, now);
    }
  }

  /** At most one copy per recurring row. */
  lemma {:induction false} CopiesAtMostOnePerRow(recurring: seq<Transaction>, current: seq<Transaction>, now: Date)
    ensures |Copies(recurring, current, now)| <= |recurring|
  {
    if recurring != [] {
      CopiesAtMostOnePerRow(recurring[..|recurring| - 1], current, now);
    }
  }

  /** Every copy is a copy of a due row that has no match this month: dated today and flagged recurring. */
  lemma {:induction false} CopiesSound(recurring: seq<Transaction>, current: seq<Transaction>, now: Date, d: Draft)
    requires d in Copies(recurring, current, now)
    ensures d.date == IsoDate(now) && d.isRecurring
    ensures exists t :: t in recurring && IsDue(t, now) && !HasSimilar(current, t) && d == CopyOf(t, now)
  {
    var n := |recurring| - 1;
    var t := recurring[n];
    if d in Copies(recurring[..n], current, now) {
      CopiesSound(recurring[..n], current, now, d);
      var s :| s in recurring[..n] && IsDue(s, now) && !HasSimilar(current, s) && d == CopyOf(s, now);
      assert s in recurring;
    } else {
      assert d == CopyOf(t, now);
    }
  }

  /** Every due row without a match this month gets its copy. */
  lemma {:induction false} CopiesComplete(recurring: seq<Transaction>, current: seq<Transaction>, now: Date, t: Transaction)
    requires t in recurring && IsDue(t, now) && !HasSimilar(current, t)
    ensures CopyOf(t, now) in Copies(recurring, current, now)
  {
    var n := |recurring| - 1;
    if recurring[n] != t {
      assert t in recurring[..n];
      CopiesComplete(recurring[..n], current, now, t);
    }
  }

  /** No copy at all when every row is too young or already has a match. */
  lemma {:induction false} CopiesNone(recurring: seq<Transaction>, current: seq<Transaction>, now: Date)
    requires forall t :: t in recurring ==> !IsDue(t, now) || HasSimilar(current, t)
    ensures Copies(recurring, current, now) == []
  {
    if recurring != [] {
      CopiesNone(recurring[..|recurring| - 1], current, now);
    }
  }

  /** A row less than a month old never produces a copy, whatever this month's rows are. */
  lemma YoungRowsNeverCopied(recurring: seq<Transaction>, current: seq<Transaction>, now: Date)
    requires forall t :: t in recurring ==> MonthsBetween(now, t.date) < 1
    ensures Copies(recurring, current, now) == []
  {
    CopiesNone(recurring, current, now);
  }

  /** A row of this month with the same description, category, amount and type suppresses the copy, whatever its source and payment method. */
  lemma MatchIgnoresSourceAndPaymentMethod(t: Transaction, c: Transaction, current: seq<Transaction>, now: Date)
    requires c in current
    requires c.description == t.description && c.category == t.category
    requires c.amount == t.amount && c.kind == t.kind
    ensures Copies([t], current, now) == []
  {
    assert MatchKeyOf(c) == MatchKeyOf(t);
    assert [t][..0] == [];
  }

  /** The duplicate check only sees the rows fetched before the loop: two due rows with the same match key both get a copy. */
  lemma SameMatchKeyBothCopied(t1: Transaction, t2: Transaction, current: seq<Transaction>, now: Date)
    requires IsDue(t1, now) && IsDue(t2, now)
    requires MatchKeyOf(t1) == MatchKeyOf(t2) && !HasSimilar(current, t1)
    ensures |Copies([t1, t2], current, now)| == 2
  {
    assert [t1, t2][..1] == [t1];
    assert [t1][..0] == [];
    assert Copies([t1], current, now) == [CopyOf(t1, now)];
    assert !HasSimilar(current, t2);
  }

  // ---------------------------------------------------------------------
  // Re-running in the same month

  lemma {:induction false} RecurringRowsAppend(a: seq<Transaction>, b: seq<Transaction>)
    ensures RecurringRows(a + b) == RecurringRows(a) + RecurringRows(b)
  {
    if b == [] {
      assert a + b == a;
    } else {
      assert (a + b)[..|a + b| - 1] == a + b[..|b| - 1];
      RecurringRowsAppend(a, b[..|b| - 1]);
    }
  }

  lemma {:induction false} CurrentMonthRowsAppend(a: seq<Transaction>, b: seq<Transaction>, now: Date)
    ensures CurrentMonthRows(a + b, now) == CurrentMonthRows(a, now) + CurrentMonthRows(b, now)
  {
    if b == [] {
      assert a + b == a;
    } else {
      assert (a + b)[..|a + b| - 1] == a + b[..|b| - 1];
      CurrentMonthRowsAppend(a, b[..|b| - 1], now);
    }
  }

  lemma {:induction false} RowsKeptWhole(rows: seq<Transaction>, now: Date)
    requires forall t :: t in rows ==> t.isRecurring == Some(true) && t.date == now
    ensures RecurringRows(rows) == rows && CurrentMonthRows(rows, now) == rows
  {
    if rows != [] {
      assert rows == rows[..|rows| - 1] + [rows[|rows| - 1]];
      RowsKeptWhole(rows[..|rows| - 1], now);
    }
  }

  /** The stored copies of a run are recurring rows dated today. */
  lemma StoredCopiesAreToday(copies: seq<Draft>, recurring: seq<Transaction>, current: seq<Transaction>,
                             now: Date, added: seq<Transaction>)
    requires 0 <= now.year <= 9999
    requires copies == Copies(recurring, current, now)
    requires |added| == |copies| && forall i :: 0 <= i < |added| ==> Store(copies[i], added[i].id) == Some(added[i])
    ensures forall a :: a in added ==> a.isRecurring == Some(true) && a.date == now
  {
    IsoDateRoundTrip(now);
    forall a | a in added
      ensures a.isRecurring == Some(true) && a.date == now
    {
      var i :| 0 <= i < |added| && added[i] == a;
      CopiesSound(recurring, current, now, copies[i]);
    }
  }

  /** After the copies are stored, every due original has a match among this month's rows. */
  lemma OriginalsMatched(recurring: seq<Transaction>, current: seq<Transaction>, now: Date, added: seq<Transaction>)
    requires var copies := Copies(recurring, current, now);
      |added| == |copies| && forall i :: 0 <= i < |added| ==> Store(copies[i], added[i].id) == Some(added[i])
    ensures forall t :: t in recurring && IsDue(t, now) ==> HasSimilar(current + added, t)
  {
    var copies := Copies(recurring, current, now);
    forall t | t in recurring && IsDue(t, now)
      ensures HasSimilar(current + added, t)
    {
      if !HasSimilar(current, t) {
        CopiesComplete(recurring, current, now, t);
        var i :| 0 <= i < |copies| && copies[i] == CopyOf(t, now);
        assert added[i] in current + added;
        assert MatchKeyOf(added[i]) == MatchKeyOf(t);
      } else {
        var c :| c in current && MatchKeyOf(c) == MatchKeyOf(t);
        assert c in current + added;
      }
    }
  }

  /**
   * Idempotence: once the copies of a run are stored (under any ids), a second
   * run at the same time creates nothing. The copies are too young, and each
   * original now finds its copy among this month's rows.
   */
  lemma {:induction false} RerunCreatesNothing(ledger: seq<Transaction>, now: Date, added: seq<Transaction>)
    requires 0 <= now.year <= 9999
    requires var copies := Copies(RecurringRows(ledger), CurrentMonthRows(ledger, now), now);
      |added| == |copies| && forall i :: 0 <= i < |added| ==> Store(copies[i], added[i].id) == Some(added[i])
    ensures Copies(RecurringRows(ledger + added), CurrentMonthRows(ledger + added, now), now) == []
  {
    var recurring, current := RecurringRows(ledger), CurrentMonthRows(ledger, now);
    StoredCopiesAreToday(Copies(recurring, current, now), recurring, current, now, added);
    RowsKeptWhole(added, now);
    RecurringRowsAppend(ledger, added);
    CurrentMonthRowsAppend(ledger, added, now);
    CopiesAppend(recurring, added, current + added, now);
    CopiesNone(added, current + added, now);
    OriginalsMatched(recurring, current, now, added);
    CopiesNone(recurring, current + added, now);
  }

  /** The current-month filter depends on the month alone. */
  lemma {:induction false} CurrentMonthRowsSameMonth(ledger: seq<Transaction>, now: Date, now2: Date)
    requires MonthIndex(now2) == MonthIndex(now)
    ensures CurrentMonthRows(ledger, now2) == CurrentMonthRows(ledger, now)
  {
    if ledger != [] {
      CurrentMonthRowsSameMonth(ledger[..|ledger| - 1], now, now2);
    }
  }

  /**
   * A later run in the same month, once a run's copies are stored: it copies
   * only originals that were not yet due at the first run. The stored copies
   * are dated in this month and so are never due, and every original that was
   * due already finds its copy among this month's rows.
   */
  lemma RerunInSameMonthCopiesOnlyNewlyDue(ledger: seq<Transaction>, now: Date, added: seq<Transaction>, now2: Date)
    requires 0 <= now.year <= 9999
    requires MonthIndex(now2) == MonthIndex(now)
    requires var copies := Copies(RecurringRows(ledger), CurrentMonthRows(ledger, now), now);
      |added| == |copies| && forall i :: 0 <= i < |added| ==> Store(copies[i], added[i].id) == Some(added[i])
    ensures forall d :: d in Copies(RecurringRows(ledger + added), CurrentMonthRows(ledger + added, now2), now2) ==>
      exists t :: t in RecurringRows(ledger) && !IsDue(t, now) && IsDue(t, now2) && d == CopyOf(t, now2)
  {
    var recurring, current := RecurringRows(ledger), CurrentMonthRows(ledger, now);
    StoredCopiesAreToday(Copies(recurring, current, now), recurring, current, now, added);
    RowsKeptWhole(added, now);
    RecurringRowsAppend(ledger, added);
    CurrentMonthRowsSameMonth(ledger + added, now, now2);
    CurrentMonthRowsAppend(ledger, added, now);
    OriginalsMatched(recurring, current, now, added);
    MonthsBetweenBounds(now2, now);
    forall d | d in Copies(recurring + added, current + added, now2)
      ensures exists t :: t in recurring && !IsDue(t, now) && IsDue(t, now2) && d == CopyOf(t, now2)
    {
      CopiesSound(recurring + added, current + added, now2, d);
      var t :| t in recurring + added && IsDue(t, now2) && !HasSimilar(current + added, t) && d == CopyOf(t, now2);
      assert t in added ==> t.date == now;
    }
  }

  lemma EmptyRecurringSetCreatesNothing(ledger: seq<Transaction>, now: Date)
    requires forall t :: t in ledger ==> t.isRecurring != Some(true)
    ensures Copies(RecurringRows(ledger), CurrentMonthRows(ledger, now), now) == []
  {
    assert RecurringRows(ledger) == [] by {
      if RecurringRows(ledger) != [] {
        assert RecurringRows(ledger)[0] in RecurringRows(ledger);
      }
    }
  }

  // ---------------------------------------------------------------------
  // The 30-minute throttle

  const ThrottleMs: int := 30 * 60 * 1000

  /** shouldCheckRecurring, with the stored timestamp and the clock as milliseconds. */
  function ShouldCheckRecurring(lastCheck: Option<int>, nowMs: int): (r: bool)
    ensures lastCheck == None ==> r
    ensures lastCheck.Some? ==> (r <==> nowMs - lastCheck.value >= ThrottleMs)
  {
    match lastCheck
    case None => true
    case Some(last) => nowMs - last >= ThrottleMs
  }

  /**
   * One dashboard load, as two readings of the clock: `startMs` when the
   * throttle is checked, `doneMs` when the timestamp is stored after the
   * awaited job (updateRecurringCheckTimestamp reads the clock again).
   */
  datatype Load = Load(startMs: int, doneMs: int)

  /** The clock does not run backwards during a load. */
  predicate WellTimed(loads: seq<Load>)
  {
    forall i :: 0 <= i < |loads| ==> loads[i].startMs <= loads[i].doneMs
  }

  /**
   * The stored timestamp after a load: the time the job finished when the
   * throttle let it run (stored whatever the job returned), unchanged when the
   * load was throttled.
   */
  function AfterLoad(lastCheck: Option<int>, load: Load): (r: Option<int>)
    ensures ShouldCheckRecurring(lastCheck, load.startMs) ==> r == Some(load.doneMs)
    ensures !ShouldCheckRecurring(lastCheck, load.startMs) ==> r == lastCheck
  {
    if ShouldCheckRecurring(lastCheck, load.startMs) then Some(load.doneMs) else lastCheck
  }

  /**
   * The loads, among a sequence of dashboard loads taken one after the other
   * (each a DashboardLoad), that run the recurring job.
   */
  function Runs(lastCheck: Option<int>, loads: seq<Load>): (r: seq<Load>)
    ensures |r| <= |loads|
    ensures forall x :: x in r ==> x in loads
    decreases |loads|
  {
    if loads == [] then []
    else
      var later := Runs(AfterLoad(lastCheck, loads[0]), loads[1..]);
      if ShouldCheckRecurring(lastCheck, loads[0].startMs) then [loads[0]] + later else later
  }

  /**
   * Each run starts at least 30 minutes after the previous run finished, and the
   * first at least 30 minutes after the stored time, whatever the order of the
   * loads. With a clock that does not run backwards within a load, the runs'
   * start times are therefore 30 minutes apart too.
   */
  lemma {:induction false} RunsSpaced(lastCheck: Option<int>, loads: seq<Load>)
    ensures var r := Runs(lastCheck, loads);
      (forall i :: 0 <= i < |r| - 1 ==> r[i].doneMs + ThrottleMs <= r[i + 1].startMs)
      && (lastCheck.Some? && r != [] ==> lastCheck.value + ThrottleMs <= r[0].startMs)
      && (WellTimed(loads) ==> forall i :: 0 <= i < |r| - 1 ==> r[i].startMs + ThrottleMs <= r[i + 1].startMs)
    decreases |loads|
  {
    if loads != [] {
      var rest := loads[1..];
      if ShouldCheckRecurring(lastCheck, loads[0].startMs) {
        RunsSpaced(Some(loads[0].doneMs), rest);
        var tail := Runs(Some(loads[0].doneMs), rest);
        assert Runs(lastCheck, loads) == [loads[0]] + tail;
      } else {
        RunsSpaced(lastCheck, rest);
      }
    }
    var r := Runs(lastCheck, loads);
    if WellTimed(loads) {
      forall i | 0 <= i < |r| - 1
        ensures r[i].startMs + ThrottleMs <= r[i + 1].startMs
      {
        assert r[i] in loads;
        var j :| 0 <= j < |loads| && loads[j] == r[i];
      }
    }
  }

  /** The first load with nothing stored runs the job. */
  lemma FirstLoadRuns(loads: seq<Load>)
    requires loads != []
    ensures Runs(None, loads) != [] && Runs(None, loads)[0] == loads[0]
  {
  }

  /**
   * Loads that each start at least 30 minutes after the previous one finished
   * (and the first 30 minutes after the stored time) all run.
   */
  lemma {:induction false} SpacedLoadsAllRun(lastCheck: Option<int>, loads: seq<Load>)
    requires forall i :: 0 < i < |loads| ==> loads[i - 1].doneMs + ThrottleMs <= loads[i].startMs
    requires lastCheck.Some? && loads != [] ==> lastCheck.value + ThrottleMs <= loads[0].startMs
    ensures Runs(lastCheck, loads) == loads
    decreases |loads|
  {
    if loads != [] {
      var rest := loads[1..];
      assert forall i :: 0 < i < |rest| ==> rest[i - 1].doneMs + ThrottleMs <= rest[i].startMs by {
        forall i | 0 < i < |rest| ensures rest[i - 1].doneMs + ThrottleMs <= rest[i].startMs {
          assert rest[i - 1] == loads[i] && rest[i] == loads[i + 1];
        }
      }
      SpacedLoadsAllRun(Some(loads[0].doneMs), rest);
      assert [loads[0]] + rest == loads;
    }
  }

  /** The timestamp kept in the browser's local storage. */
  class CheckTimestamp {
    var lastCheck: Option<int>

    constructor (stored: Option<int>)
      ensures lastCheck == stored
    {
      lastCheck := stored;
    }

    method ShouldCheck(nowMs: int) returns (r: bool)
      ensures r == ShouldCheckRecurring(lastCheck, nowMs)
    {
      r := ShouldCheckRecurring(lastCheck, nowMs);
    }

    /** updateRecurringCheckTimestamp. */
    method Update(nowMs: int)
      modifies this
      ensures lastCheck == Some(nowMs)
    {
      lastCheck := Some(nowMs);
    }

    /**
     * The dashboard's mount effect: check the throttle at `nowMs` and, when it
     * lets the job run, run it (its outcome is not modelled here) and store the
     * time `doneMs` read once the job has finished.
     */
    method DashboardLoad(nowMs: int, doneMs: int) returns (ran: bool)
      modifies this
      ensures ran == ShouldCheckRecurring(old(lastCheck), nowMs)
      ensures lastCheck == AfterLoad(old(lastCheck), Load(nowMs, doneMs))
    {
      ran := ShouldCheck(nowMs);
      if ran {
        Update(doneMs);
      }
    }
  }
}

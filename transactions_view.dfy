/**
 * The useTransactions hook: the filter / stable sort / paginate pipeline
 * over the in-memory ledger, the per-event realtime list updates, and the
 * hook's state (rows, current page, filters, error) as a class.
 */
module TransactionsView {
  import opened Common
  import opened Calendar
  import opened Ledger

  const ItemsPerPage: int := 10

  datatype TypeFilter = AllTypes | OnlyType(kind: string)
  datatype SortBy = ByDate | ByAmount
  datatype SortOrder = Asc | Desc

  /** `category` and `recurringOnly` are optional in the source. */
  datatype Filters = Filters(kind: TypeFilter, sortBy: SortBy, sortOrder: SortOrder,
                             category: Option<string>, recurringOnly: Option<bool>)

  const DefaultFilters := Filters(AllTypes, ByDate, Desc, None, None)

  // ---------------------------------------------------------------------
  // Filtering

  /** A row survives the three filters: the type filter unless "all", the category filter when it is non-empty, and `is_recurring === true` when `recurringOnly` is set. */
  predicate Passes(t: Transaction, f: Filters)
  {
    && (f.kind.OnlyType? ==> t.kind == f.kind.kind)
    && (Truthy(f.category) ==> t.category == f.category)
    && (OrFalse(f.recurringOnly) ==> t.isRecurring == Some(true))
  }

  function Filtered(s: seq<Transaction>, f: Filters): (r: seq<Transaction>)
    ensures |r| <= |s|
    ensures forall t :: t in r <==> t in s && Passes(t, f)
  {
    if s == [] then []
    else (if Passes(s[0], f) then [s[0]] else []) + Filtered(s[1..], f)
  }

  lemma {:induction false} FilteredAppend(a: seq<Transaction>, b: seq<Transaction>, f: Filters)
    ensures Filtered(a + b, f) == Filtered(a, f) + Filtered(b, f)
  {
    if a != [] {
      assert (a + b)[0] == a[0];
      assert (a + b)[1..] == a[1..] + b;
      FilteredAppend(a[1..], b, f);
    } else {
      assert a + b == b;
    }
  }

  /** With the default filters every row is kept, in order. */
  lemma {:induction false} DefaultFiltersKeepAll(s: seq<Transaction>)
    ensures Filtered(s, DefaultFilters) == s
  {
    if s != [] {
      DefaultFiltersKeepAll(s[1..]);
    }
  }

  /** An empty category string is the same as no category filter. */
  lemma EmptyCategoryIgnored(s: seq<Transaction>, f: Filters)
    ensures Filtered(s, f.(category := Some(""))) == Filtered(s, f.(category := None))
  {
    var g, h := f.(category := Some("")), f.(category := None);
    if s != [] {
      assert Passes(s[0], g) == Passes(s[0], h);
      EmptyCategoryIgnored(s[1..], f);
    }
  }

  // ---------------------------------------------------------------------
  // Sorting

  /**
   * The ascending sort key: the date's time value (day number) or the amount.
   * Descending order negates the comparator, that is, the key.
   */
  function Key(t: Transaction, f: Filters): real
  {
    var k := if f.sortBy == ByDate then DayNumber(t.date) as real else t.amount;
    if f.sortOrder == Asc then k else -k
  }

  predicate Sorted(s: seq<Transaction>, f: Filters)
  {
    forall i, j :: 0 <= i < j < |s| ==> Key(s[i], f) <= Key(s[j], f)
  }

  /** The rows of `s` with key `k`, in their order in `s`. */
  function WithKey(s: seq<Transaction>, f: Filters, k: real): seq<Transaction>
  {
    if s == [] then []
    else (if Key(s[0], f) == k then [s[0]] else []) + WithKey(s[1..], f, k)
  }

  /** Inserts `x` after every row whose key is not greater than its own. */
  function InsertSorted(x: Transaction, s: seq<Transaction>, f: Filters): seq<Transaction>
  {
    if s == [] then [x]
    else if Key(x, f) < Key(s[0], f) then [x] + s
    else [s[0]] + InsertSorted(x, s[1..], f)
  }

  /** A stable sort by Key (the engine's Array.prototype.sort is stable). */
  function SortRows(s: seq<Transaction>, f: Filters): seq<Transaction>
  {
    if s == [] then []
    else InsertSorted(s[|s| - 1], SortRows(s[..|s| - 1], f), f)
  }

  lemma {:induction false} InsertSortedPermutes(x: Transaction, s: seq<Transaction>, f: Filters)
    ensures multiset(InsertSorted(x, s, f)) == multiset(s) + multiset{x}
  {
    if s != [] && Key(x, f) >= Key(s[0], f) {
      InsertSortedPermutes(x, s[1..], f);
      assert s == [s[0]] + s[1..];
    }
  }

  lemma {:induction false} InsertSortedSorted(x: Transaction, s: seq<Transaction>, f: Filters)
    requires Sorted(s, f)
    ensures Sorted(InsertSorted(x, s, f), f)
  {
    if s != [] && Key(x, f) >= Key(s[0], f) {
      var rest := InsertSorted(x, s[1..], f);
      InsertSortedSorted(x, s[1..], f);
      InsertSortedPermutes(x, s[1..], f);
      forall y | y in rest
        ensures Key(s[0], f) <= Key(y, f)
      {
        assert y in multiset(rest);
        if y != x {
          assert y in s[1..];
        }
      }
      assert InsertSorted(x, s, f) == [s[0]] + rest;
    }
  }

  lemma {:induction false} WithKeyAppend(a: seq<Transaction>, b: seq<Transaction>, f: Filters, k: real)
    ensures WithKey(a + b, f, k) == WithKey(a, f, k) + WithKey(b, f, k)
  {
    if a != [] {
      assert (a + b)[0] == a[0];
      assert (a + b)[1..] == a[1..] + b;
      WithKeyAppend(a[1..], b, f, k);
    } else {
      assert a + b == b;
    }
  }

  lemma {:induction false} WithKeyNone(s: seq<Transaction>, f: Filters, k: real)
    requires forall i :: 0 <= i < |s| ==> Key(s[i], f) != k
    ensures WithKey(s, f, k) == []
  {
    if s != [] {
      WithKeyNone(s[1..], f, k);
    }
  }

  lemma WithKeyCons(x: Transaction, s: seq<Transaction>, f: Filters, k: real)
    ensures WithKey([x] + s, f, k) == (if Key(x, f) == k then [x] else []) + WithKey(s, f, k)
  {
    assert ([x] + s)[1..] == s;
  }

  lemma SortedTail(s: seq<Transaction>, f: Filters)
    requires Sorted(s, f) && s != []
    ensures Sorted(s[1..], f)
    ensures forall i :: 0 <= i < |s| ==> Key(s[0], f) <= Key(s[i], f)
  {
  }

  /** Inserting `x` appends it to its key class: it lands after the rows with an equal key. */
  lemma {:induction false} InsertSortedStable(x: Transaction, s: seq<Transaction>, f: Filters, k: real)
    requires Sorted(s, f)
    ensures WithKey(InsertSorted(x, s, f), f, k) == WithKey(s, f, k) + (if Key(x, f) == k then [x] else [])
  {
    if s == [] {
      WithKeyCons(x, [], f, k);
    } else if Key(x, f) < Key(s[0], f) {
      WithKeyCons(x, s, f, k);
      if Key(x, f) == k {
        SortedTail(s, f);
        WithKeyNone(s, f, k);
      }
    } else {
      var rest := InsertSorted(x, s[1..], f);
      SortedTail(s, f);
      InsertSortedStable(x, s[1..], f, k);
      WithKeyCons(s[0], rest, f, k);
      assert s == [s[0]] + s[1..];
      WithKeyCons(s[0], s[1..], f, k);
    }
  }

  /** The sort is a sorted permutation of its input. */
  lemma {:induction false} SortRowsSortedPermutation(s: seq<Transaction>, f: Filters)
    ensures Sorted(SortRows(s, f), f)
    ensures multiset(SortRows(s, f)) == multiset(s)
  {
    if s != [] {
      var n := |s| - 1;
      SortRowsSortedPermutation(s[..n], f);
      InsertSortedSorted(s[n], SortRows(s[..n], f), f);
      InsertSortedPermutes(s[n], SortRows(s[..n], f), f);
      assert s == s[..n] + [s[n]];
    }
  }

  lemma WithKeySingle(x: Transaction, f: Filters, k: real)
    ensures WithKey([x], f, k) == if Key(x, f) == k then [x] else []
  {
    assert [x][1..] == [];
  }

  /** Stability: the rows with any one key keep their input order, in both directions. */
  lemma {:induction false} SortRowsStable(s: seq<Transaction>, f: Filters, k: real)
    ensures WithKey(SortRows(s, f), f, k) == WithKey(s, f, k)
  {
    if s != [] {
      var n := |s| - 1;
      var init, last := s[..n], s[n];
      SortRowsSortedPermutation(init, f);
      SortRowsStable(init, f, k);
      InsertSortedStable(last, SortRows(init, f), f, k);
      assert s == init + [last];
      WithKeyAppend(init, [last], f, k);
      WithKeySingle(last, f, k);
    }
  }

  /** filteredAndSortedTransactions. */
  function FilteredAndSorted(s: seq<Transaction>, f: Filters): seq<Transaction>
  {
    SortRows(Filtered(s, f), f)
  }

  /** The displayed list: exactly the rows that pass the filters, each as often as in the ledger, sorted. */
  lemma FilteredAndSortedMeaning(s: seq<Transaction>, f: Filters)
    ensures Sorted(FilteredAndSorted(s, f), f)
    ensures multiset(FilteredAndSorted(s, f)) == multiset(Filtered(s, f))
    ensures forall t :: t in FilteredAndSorted(s, f) <==> t in s && Passes(t, f)
  {
    SortRowsSortedPermutation(Filtered(s, f), f);
    forall t
      ensures t in FilteredAndSorted(s, f) <==> t in Filtered(s, f)
    {
      assert t in FilteredAndSorted(s, f) <==> t in multiset(FilteredAndSorted(s, f));
    }
  }

  /**
   * Where a realtime INSERT puts the row does not change which rows are displayed,
   * counted with multiplicity. Their order can differ among rows whose sort keys
   * are equal, because the sort is stable.
   */
  lemma {:induction false} DisplayIgnoresInsertPosition(s: seq<Transaction>, t: Transaction, f: Filters)
    ensures multiset(FilteredAndSorted([t] + s, f)) == multiset(FilteredAndSorted(s + [t], f))
  {
    SortRowsSortedPermutation(Filtered([t] + s, f), f);
    SortRowsSortedPermutation(Filtered(s + [t], f), f);
    FilteredAppend([t], s, f);
    FilteredAppend(s, [t], f);
  }

  // ---------------------------------------------------------------------
  // Pagination

  /** Math.ceil(n / 10). */
  function TotalPages(n: nat): (r: nat)
    ensures r == 0 <==> n == 0
    ensures (r - 1) * 10 < n <= r * 10 || n == 0
  {
    (n + 9) / 10
  }

  /** The index Array.prototype.slice uses for `i`: negative counts from the end, and both are clamped to the length. */
  function SliceIndex(i: int, n: nat): (r: nat)
    ensures r <= n
  {
    if i < 0 then (if n + i < 0 then 0 else n + i)
    else if i > n then n else i
  }

  function Slice(s: seq<Transaction>, start: int, end: int): seq<Transaction>
  {
    var a, b := SliceIndex(start, |s|), SliceIndex(end, |s|);
    if a < b then s[a..b] else []
  }

  /** The rows shown on page `p`. */
  function Page(s: seq<Transaction>, p: int): seq<Transaction>
  {
    var startIndex := (p - 1) * ItemsPerPage;
    Slice(s, startIndex, startIndex + ItemsPerPage)
  }

  /** Any page, even one out of range, shows at most ten rows. */
  lemma PageAtMostTen(s: seq<Transaction>, p: int)
    ensures |Page(s, p)| <= 10
  {
  }

  /** Page p >= 1 shows rows [(p-1)*10, p*10) cut to the list. */
  lemma PageBounds(s: seq<Transaction>, p: int)
    requires p >= 1
    ensures var lo := if (p - 1) * 10 < |s| then (p - 1) * 10 else |s|;
      var hi := if p * 10 < |s| then p * 10 else |s|;
      Page(s, p) == s[lo..hi]
  {
  }

  /** Every page from 1 to totalPages holds at least one row. */
  lemma PagesInRangeNonEmpty(s: seq<Transaction>, p: int)
    requires 1 <= p <= TotalPages(|s|)
    ensures Page(s, p) != []
  {
    PageBounds(s, p);
  }

  function PagesUpTo(s: seq<Transaction>, k: nat): seq<Transaction>
  {
    if k == 0 then [] else PagesUpTo(s, k - 1) + Page(s, k)
  }

  lemma {:induction false} PagesUpToPrefix(s: seq<Transaction>, k: nat)
    ensures PagesUpTo(s, k) == s[..if k * 10 < |s| then k * 10 else |s|]
  {
    if k > 0 {
      PagesUpToPrefix(s, k - 1);
      PageBounds(s, k);
    }
  }

  /** Pages 1..totalPages, concatenated, are the whole list: no row is skipped or shown twice. */
  lemma {:induction false} PagesCoverList(s: seq<Transaction>)
    ensures PagesUpTo(s, TotalPages(|s|)) == s
  {
    PagesUpToPrefix(s, TotalPages(|s|));
  }

  // ---------------------------------------------------------------------
  // Realtime events

  datatype Event = Inserted(row: Transaction) | Updated(row: Transaction) | Deleted(row: Transaction)

  /** INSERT: the new row goes to the head, with no de-duplication. */
  function ApplyInsert(s: seq<Transaction>, t: Transaction): (r: seq<Transaction>)
    ensures |r| == |s| + 1 && r[0] == t && r[1..] == s
  {
    [t] + s
  }

  /** UPDATE: every row with the event's id is replaced by the event's row. */
  function ApplyUpdate(s: seq<Transaction>, t: Transaction): (r: seq<Transaction>)
    ensures |r| == |s|
    ensures forall i :: 0 <= i < |s| ==> r[i].id == s[i].id
    ensures forall i :: 0 <= i < |s| && s[i].id != t.id ==> r[i] == s[i]
    ensures forall i :: 0 <= i < |s| && s[i].id == t.id ==> r[i] == t
  {
    var r := seq(|s|, i requires 0 <= i < |s| => if s[i].id == t.id then t else s[i]);
    assert forall i :: 0 <= i < |s| ==> r[i] == (if s[i].id == t.id then t else s[i]);
    r
  }

  /** DELETE: every row with the event's id is dropped; the rest keep their order. */
  function ApplyDelete(s: seq<Transaction>, id: string): (r: seq<Transaction>)
    ensures |r| <= |s|
    ensures forall t :: t in r <==> t in s && t.id != id
  {
    if s == [] then []
    else (if s[0].id != id then [s[0]] else []) + ApplyDelete(s[1..], id)
  }

  function ApplyEvent(s: seq<Transaction>, e: Event): seq<Transaction>
  {
    match e
    case Inserted(t) => ApplyInsert(s, t)
    case Updated(t) => ApplyUpdate(s, t)
    case Deleted(t) => ApplyDelete(s, t.id)
  }

  /** A duplicate delivery of an INSERT leaves two copies of the row. */
  lemma InsertTwiceDuplicates(s: seq<Transaction>, t: Transaction)
    ensures multiset(ApplyInsert(ApplyInsert(s, t), t))[t] == multiset(s)[t] + 2
  {
    assert ApplyInsert(ApplyInsert(s, t), t) == [t, t] + s;
  }

  /** An UPDATE for an id that is not in the list changes nothing. */
  lemma UpdateUnknownIdNoChange(s: seq<Transaction>, t: Transaction)
    requires forall i :: 0 <= i < |s| ==> s[i].id != t.id
    ensures ApplyUpdate(s, t) == s
  {
  }

  /** Delivering the same UPDATE twice is the same as once. */
  lemma UpdateIdempotent(s: seq<Transaction>, t: Transaction)
    ensures ApplyUpdate(ApplyUpdate(s, t), t) == ApplyUpdate(s, t)
  {
    var r := ApplyUpdate(s, t);
    forall i | 0 <= i < |s|
      ensures ApplyUpdate(r, t)[i] == r[i]
    {
    }
  }

  /** DELETE filters each part of the list separately, so the order of the surviving rows is kept. */
  lemma {:induction false} DeleteAppend(a: seq<Transaction>, b: seq<Transaction>, id: string)
    ensures ApplyDelete(a + b, id) == ApplyDelete(a, id) + ApplyDelete(b, id)
  {
    if a != [] {
      assert (a + b)[0] == a[0];
      assert (a + b)[1..] == a[1..] + b;
      DeleteAppend(a[1..], b, id);
    } else {
      assert a + b == b;
    }
  }

  /** Delivering the same DELETE twice is the same as once. */
  lemma {:induction false} DeleteIdempotent(s: seq<Transaction>, id: string)
    ensures ApplyDelete(ApplyDelete(s, id), id) == ApplyDelete(s, id)
  {
    if s != [] {
      DeleteIdempotent(s[1..], id);
      var head := if s[0].id != id then [s[0]] else [];
      DeleteAppend(head, ApplyDelete(s[1..], id), id);
      if s[0].id != id {
        assert ApplyDelete(head, id) == head by {
          assert head[1..] == [];
        }
      }
    }
  }

  /** A DELETE for an id that is not in the list changes nothing. */
  lemma {:induction false} DeleteUnknownIdNoChange(s: seq<Transaction>, id: string)
    requires forall i :: 0 <= i < |s| ==> s[i].id != id
    ensures ApplyDelete(s, id) == s
  {
    if s != [] {
      DeleteUnknownIdNoChange(s[1..], id);
    }
  }

  /** An INSERT followed by a DELETE of a fresh id restores the list. */
  lemma InsertThenDelete(s: seq<Transaction>, t: Transaction)
    requires forall i :: 0 <= i < |s| ==> s[i].id != t.id
    ensures ApplyDelete(ApplyInsert(s, t), t.id) == s
  {
    assert ([t] + s)[1..] == s;
    DeleteUnknownIdNoChange(s, t.id);
  }

  // ---------------------------------------------------------------------
  // The hook's state

  /** What a fetch returns: the user's rows (newest first) or an error message. */
  datatype FetchResult = Fetched(rows: seq<Transaction>) | FetchFailed(message: string)

  class TransactionsState {
    var transactions: seq<Transaction>
    var loading: bool
    var error: Option<string>
    var currentPage: int
    var filters: Filters

    constructor ()
      ensures transactions == [] && loading && error == None
      ensures currentPage == 1 && filters == DefaultFilters
    {
      transactions := [];
      loading := true;
      error := None;
      currentPage := 1;
      filters := DefaultFilters;
    }

    /** The page of rows returned as `transactions`. */
    function Visible(): seq<Transaction>
      reads this
    {
      Page(FilteredAndSorted(transactions, filters), currentPage)
    }

    function PageCount(): nat
      reads this
    {
      TotalPages(|Filtered(transactions, filters)|)
    }

    /** fetchTransactions: a failure keeps the rows and records the message. */
    method Refetch(result: FetchResult)
      modifies this
      ensures !loading && currentPage == old(currentPage) && filters == old(filters)
      ensures result.Fetched? ==> transactions == result.rows && error == None
      ensures result.FetchFailed? ==> transactions == old(transactions) && error == Some(result.message)
    {
      loading := true;
      error := None;
      match result {
        case Fetched(rows) => transactions := rows;
        case FetchFailed(message) => error := Some(message);
      }
      loading := false;
    }

    /** The realtime callback. */
    method OnRealtime(e: Event)
      modifies this
      ensures transactions == ApplyEvent(old(transactions), e)
      ensures loading == old(loading) && error == old(error)
      ensures currentPage == old(currentPage) && filters == old(filters)
    {
      match e
      case Inserted(t) => transactions := [t] + transactions;
      case Updated(t) => transactions := ApplyUpdate(transactions, t);
      case Deleted(t) => transactions := ApplyDelete(transactions, t.id);
    }

    /** setFilters together with the effect that follows every filter change: back to page 1. */
    method SetFilters(f: Filters)
      modifies this
      ensures filters == f && currentPage == 1
      ensures transactions == old(transactions) && loading == old(loading) && error == old(error)
      ensures Visible() == Page(FilteredAndSorted(transactions, f), 1)
    {
      filters := f;
      currentPage := 1;
    }

    method SetCurrentPage(page: int)
      modifies this
      ensures currentPage == page
      ensures transactions == old(transactions) && filters == old(filters)
      ensures loading == old(loading) && error == old(error)
    {
      currentPage := page;
    }
  }
}

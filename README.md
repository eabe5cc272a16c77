# Gargantua finance dashboard — verified model of the core

This project models the computational core of the Gargantua personal-finance
dashboard in Dafny and proves properties of it. The core:

- **Dashboard summary** (`calculateDashboardStats`): the all-time balance, this month's income and expenses, the savings rate, and its change since last month.
- **Analytics series**:
  - per-month totals for a window of months (`groupTransactionsByMonth`);
  - a dense per-day series for the trends chart (`groupTransactionsByDay`).
- **Wishlist purchase scorer** (`calculatePurchaseStatus`): a weighted 0–100 score and a four-way status.
- **Recurring transactions** (`checkAndCreateRecurringTransactions`): each month, re-create recurring rows that are at least a month old and have no look-alike in the current month. Also the 30-minute throttle around it.
- **Ledger list view** (`useTransactions`):
  - filter, then stable sort, then paginate by 10;
  - reset to page 1 when the filters change;
  - apply realtime INSERT / UPDATE / DELETE events to the in-memory list.
- **Transaction dialogs** (`useTransactionDialogs`): five pieces of dialog state, and the handlers that decide between adding and updating a row.
- **Form validators** (zod schemas) and **badge colour tables**.
- **Route guard** of the session middleware: single-user authorisation and the three redirect rules.

The files:

- `common.dfy`: `Option`, prefix test, and JavaScript's `x || null` / `x || false`.
- `calendar.dfy`: calendar dates, day numbers, `differenceInMonths`, and the `yyyy-MM-dd` format with its parser (round trip proved).
- `ledger.dfy`:
  - the `Transaction` row and the `Draft` insert;
  - the store's insert (`Store`);
  - one recursive sum `Total` over a scope (all time, a span of months, or a span of days) and a side (income or expense), with its append, permutation and split lemmas.
- One file per core source file: `dashboard.dfy`, `analytics.dfy`, `wishlist.dfy`, `recurring.dfy`, `transactions_view.dfy`, `transaction_dialogs.dfy`, `validations.dfy`, `category_colors.dfy`, `middleware.dfy`.

Code that works by updating variables is imperative Dafny, proved against a specification function:

- the accumulator loop of the dashboard;
- the nested loops of the month series;
- the map fill, row scan and oldest-first read-back of the day series;
- the selection loop of the recurring job.

The React hooks are classes. Their fields are the hook's state and their methods are the handlers. The dialog hook records every add / update / delete call in a ghost log.

Clock readings, the signed-in user, the fetched rows and the success or failure of each store call are all parameters.

A transaction's `type` is a string. `"income"` is income and every other value is treated as an expense, as the source does. The enum's two values are taken to be `"income"` and `"expense"`; the enum's declaration is not part of this model.

Two behaviours of the code are worth stating on their own:

- **Wishlist status.** The purchase status has exactly four outcomes: cannot afford, exceeds safe limit, good to purchase (score ≥ 70), not recommended. No score band lies between the last two.
- **Realtime INSERT.** An INSERT event does not de-duplicate. A repeated delivery leaves two copies (`TransactionsView.InsertTwiceDuplicates`).

## Model

| member | source | states |
|---|---|---|
| `Calendar.DayNumberNextDay` | lib/utils/analytics.ts:77-81 | The day after a date has the next day number, across month and year ends, so stepping back one day at a time visits consecutive calendar days. |
| `Calendar.MonthIndexLabel` | lib/utils/analytics.ts:55-55 | A month index decodes back to the date's own year and month (the month label of a bucket). |
| `Calendar.MonthsBetween` | lib/services/recurring.ts:56-57 | `differenceInMonths` on calendar dates: the whole months from the earlier date to the later one, a month counting once its day of the month is reached again (negative when the dates are the other way round). Its relation to the calendar-month gap is stated by `Calendar.MonthsBetweenBounds`. |
| `Calendar.MonthsBetweenBounds` | lib/services/recurring.ts:56-57 | The month difference is at least the calendar-month gap minus one. It is 0 within one month, and a difference of 1 or more means the earlier date is in an earlier calendar month. |
| `Calendar.NumberOfDigits` | lib/services/recurring.ts:78-78 | A number written with a fixed number of zero-padded digits reads back as the same number. |
| `Calendar.IsoDate` | lib/services/recurring.ts:78-78 | The `yyyy-MM-dd` text of a date, exactly 10 characters for years 0..9999. `Calendar.IsoDateRoundTrip` proves it reads back as the same date. |
| `Calendar.ParseIsoDate` | lib/services/recurring.ts:88-95 | The store's reading of a date value: only a 10-character `yyyy-MM-dd` string that names a real calendar date parses. It inverts `Calendar.IsoDate` by `Calendar.IsoDateRoundTrip`. |
| `Calendar.IsoDateRoundTrip` | lib/services/recurring.ts:78-78 | Formatting a date (years 0..9999) as `yyyy-MM-dd` and parsing it back gives the same date. |
| `Ledger.Store` | lib/services/recurring.ts:88-95 | The store keeps a row exactly when the date string parses. The row keeps the draft's type, amount and recurring flag and gets the given id and the parsed date. |
| `Ledger.Total` | lib/utils/dashboard.ts:33-55 | The sum of the amounts of one side (income, or any other type) within a scope of dates. Its algebra is stated by `Ledger.TotalAppend`, `Ledger.TotalPermutation`, `Ledger.TotalSpanSplit` and `Ledger.TotalOutsideScope`. |
| `Ledger.SavingsRate` | lib/utils/dashboard.ts:57-64 | (income − expenses) / income × 100 when income is positive, else 0. Its bounds and edge values are stated by `Ledger.SavingsRateBounds`. |
| `Ledger.SavingsRateBounds` | lib/utils/dashboard.ts:57-64 | The savings rate is 0 when income is not positive. With positive income it is at most 100 for non-negative expenses, at least 0 when expenses do not exceed income, exactly 100 with no expenses, and 0 exactly when expenses equal income. |
| `Ledger.TotalAppend` | lib/utils/dashboard.ts:33-55 | Summing a concatenation is the sum of the parts. |
| `Ledger.TotalPermutation` | lib/utils/dashboard.ts:33-55 | Any reordering of the rows gives the same sums. |
| `Ledger.TotalSpanSplit` | lib/utils/analytics.ts:28-49 | The sum over a span of months or days is the sum over the span without its last unit plus the sum for that unit. |
| `Ledger.TotalOutsideScope` | lib/utils/analytics.ts:84-97 | Rows outside a scope contribute nothing to its sums. |
| `Dashboard.Stats` | lib/utils/dashboard.ts:16-73 | The statistics as independent sums: the balance is all-time income minus all-time expenses, then this month's income, expenses and rate, and the change against last month's rate. `Dashboard.CalculateDashboardStats` is proved equal to it and `Dashboard.StatsOrderIndependent` shows the order of rows does not matter. |
| `Dashboard.CalculateDashboardStats` | lib/utils/dashboard.ts:16-73 | The six-accumulator loop returns the specified statistics: all-time balance, this month's income and expenses, this month's savings rate, and its change against last month. |
| `Dashboard.StatsOrderIndependent` | lib/utils/dashboard.ts:33-55 | The statistics depend only on the multiset of rows, not on their order. |
| `Dashboard.BalanceAfterAppend` | lib/utils/dashboard.ts:36-41 | One more row moves the balance by its amount, up for income and down for anything else. |
| `Dashboard.MonthBucketsExclusive` | lib/utils/dashboard.ts:42-54 | This month's and last month's totals together are the total over the two-month span: no row is counted in both. |
| `Dashboard.OtherMonthsOnlyMoveBalance` | lib/utils/dashboard.ts:42-54 | A row dated outside this month and last month changes the balance and no other figure. |
| `Dashboard.EmptyLedger` | lib/utils/dashboard.ts:56-65 | With no rows every figure is 0. |
| `Dashboard.JanuaryExample` | lib/utils/dashboard.ts:16-73 | 50000 of income and 20000 of expenses this month give balance 30000, a savings rate of 60 and a change of 60. |
| `Analytics.MonthBucket` | lib/utils/analytics.ts:33-60 | The bucket of a month index carries that month's own year and month. Its figures are stated by `Analytics.MonthBucketMeaning`. |
| `Analytics.MonthlySeries` | lib/utils/analytics.ts:23-61 | The series has one bucket per month of the window, in consecutive month order, ending with the current month. |
| `Analytics.GroupTransactionsByMonth` | lib/utils/analytics.ts:23-62 | The nested loops return the specified month series. |
| `Analytics.MonthBucketMeaning` | lib/utils/analytics.ts:33-60 | Each bucket's income and expenses are the sums of exactly the rows in its month. Its savings are income minus expenses, and its rate is 0 when there is no income. |
| `Analytics.MonthlySeriesCoversWindow` | lib/utils/analytics.ts:28-49 | The buckets' incomes (and expenses) add up to the sum over the whole window: every row in the window is counted once. |
| `Analytics.DayBucket` | lib/utils/analytics.ts:74-97 | The entry of a day carries that day. It holds the day's sums when the day passes the window test, and zeros otherwise (`Analytics.DailySeriesIsDense`, `Analytics.WindowEdges`). |
| `Analytics.DailySeries` | lib/utils/analytics.ts:67-106 | The day series has days+1 entries, one per consecutive day, oldest first, ending today. |
| `Analytics.EmptyDayMap` | lib/utils/analytics.ts:74-81 | The first loop leaves a zero entry for exactly the days from `days` days ago to today. |
| `Analytics.AddRowsToDays` | lib/utils/analytics.ts:83-97 | After the row scan, each counted day's entry holds the income and expenses of exactly its rows. Days outside the window test stay at zero. |
| `Analytics.GroupTransactionsByDay` | lib/utils/analytics.ts:67-106 | Filling the date map from today back to `days` days ago, then scanning the rows, then reading the entries from the oldest day to today (the insertion order reversed) returns the specified day series. |
| `Analytics.OutOfWindowRowIgnored` | lib/utils/analytics.ts:84-97 | A row whose midnight falls outside [now − days, now] leaves the series unchanged. |
| `Analytics.DailySeriesIsDense` | lib/utils/analytics.ts:74-81 | A day without rows still has its entry, with zero totals. |
| `Analytics.WindowEdges` | lib/utils/analytics.ts:72-86 | Today is always counted. The oldest listed day is counted only when now is exactly midnight. Every day in between is counted, and nothing outside. |
| `Analytics.DailySeriesCoversWindow` | lib/utils/analytics.ts:84-105 | The daily incomes and the daily expenses add up to the income and the expenses of exactly the counted days. |
| `Wishlist.MapRange` | lib/utils/wishlist.ts:26-32 | The linear rescaling of `mapRange`. Its ends are stated by `Wishlist.MapRangeEnds`. |
| `Wishlist.MapRangeEnds` | lib/utils/wishlist.ts:26-32 | The linear rescaling sends the ends of the input range to the ends of the output range. |
| `Wishlist.Round` | lib/utils/wishlist.ts:42-47 | Rounding gives the integer within one half of the value. |
| `Wishlist.SafeSpendLimit` | lib/utils/wishlist.ts:16-17 | 15% of the balance: between 0 and the balance when the balance is not negative, and strictly below a positive balance. |
| `Wishlist.NecessityScore` | lib/utils/wishlist.ts:34-34 | Necessity 1..5 maps into 2..10. |
| `Wishlist.PriorityScore` | lib/utils/wishlist.ts:35-35 | Priority 1..3 maps into 3.33..10. |
| `Wishlist.AffordabilityScore` | lib/utils/wishlist.ts:37-40 | With a limit that is not negative, the weight lies in 0..10 and is 10 exactly when the cost is within the limit. A zero limit, where JavaScript divides by zero, ends at 0 for any positive cost. |
| `Wishlist.PurchaseScore` | lib/utils/wishlist.ts:42-47 | For priority 1..3, necessity 1..5 and a balance that is not negative, the score lies in 0..100, whatever the cost. |
| `Wishlist.CalculatePurchaseStatus` | lib/utils/wishlist.ts:10-70 | The score is the purchase score. "Good to purchase" only for an affordable item scoring at least 70. "Exceeds safe limit" only for an affordable item dearer than the limit it carries. |
| `Wishlist.WeightRanges` | lib/utils/wishlist.ts:34-35 | Necessity 1..5 maps into 2..10 and priority 1..3 into 3.33..10, with the ends hit exactly. |
| `Wishlist.AffordabilityRange` | lib/utils/wishlist.ts:37-40 | With a positive balance the affordability weight lies in 0..10, and it is 10 exactly when the cost is within the safe limit. |
| `Wishlist.NegativeBalanceExceedsTen` | lib/utils/wishlist.ts:16-40 | With a negative balance the safe limit is negative, and the affordability weight can exceed 10. |
| `Wishlist.ScoreMonotoneInCost` | lib/utils/wishlist.ts:37-47 | With a positive balance, a dearer item never scores higher. |
| `Wishlist.TopItemScoresHundred` | lib/utils/wishlist.ts:42-47 | Priority 3 and necessity 5 within the safe limit score exactly 100. |
| `Wishlist.ScoreWithinLimitRange` | lib/utils/wishlist.ts:42-47 | Within the safe limit and with in-range weights, the score lies in 48..100. |
| `Wishlist.CannotAffordExactly` | lib/utils/wishlist.ts:52-55 | The status is "cannot afford" exactly when the balance is below the cost. |
| `Wishlist.StatusChain` | lib/utils/wishlist.ts:52-68 | The status follows the ordered chain: cannot afford, then exceeds safe limit (carrying the limit), then good to purchase iff the score is at least 70, else not recommended. |
| `Wishlist.StatusColorsDistinct` | lib/utils/wishlist.ts:50-68 | The four statuses get four distinct badge colours. |
| `Wishlist.AffordabilityExample` | lib/utils/wishlist.ts:10-70 | Cost 10000 with balance 100000, priority 3 and necessity 5 gives score 100 and good to purchase. |
| `Recurring.HasSimilar` | lib/services/recurring.ts:65-71 | A row of the current month has the same description, category, amount and type. `Recurring.MatchIgnoresSourceAndPaymentMethod` states that nothing else is compared. |
| `Recurring.IsDue` | lib/services/recurring.ts:56-62 | The row is at least one whole month old by `differenceInMonths`. `Recurring.YoungRowsNeverCopied` states its effect. |
| `Recurring.CopyOf` | lib/services/recurring.ts:75-84 | A copy has the same description, category, amount and type as its original. |
| `Recurring.SelectCopies` | lib/services/recurring.ts:52-86 | The selection loop returns the specified copies, in the order of the recurring rows. |
| `Recurring.Copies` | lib/services/recurring.ts:52-86 | The selection as a function: the copies of the due recurring rows without a look-alike, in order. Its meaning is stated by `Recurring.CopiesSound`, `Recurring.CopiesComplete`, `Recurring.CopiesAppend` and `Recurring.CopiesAtMostOnePerRow`. |
| `Recurring.RecurringRows` | lib/services/recurring.ts:26-30 | The fetched rows are exactly the ledger rows whose recurring flag is true. |
| `Recurring.CurrentMonthRows` | lib/services/recurring.ts:38-48 | The current-month rows are exactly the ledger rows dated in now's calendar month. |
| `Recurring.CheckAndCreateRecurringTransactions` | lib/services/recurring.ts:14-102 | With any failure (no user, failed fetch, failed current-month fetch, failed insert) the result is 0 and nothing is stored. Otherwise the result is the number of copies, and exactly those copies are inserted. |
| `Recurring.CopiesAppend` | lib/services/recurring.ts:55-86 | Each recurring row is decided on its own: the copies of a concatenation are the copies of the parts, in order. |
| `Recurring.CopiesAtMostOnePerRow` | lib/services/recurring.ts:55-86 | A run creates at most one copy per recurring row. |
| `Recurring.CopiesSound` | lib/services/recurring.ts:74-85 | Every copy is dated today, is flagged recurring, and is the copy of a recurring row that is due and has no look-alike this month. |
| `Recurring.CopiesComplete` | lib/services/recurring.ts:59-85 | Every due recurring row without a look-alike this month gets its copy. |
| `Recurring.CopiesNone` | lib/services/recurring.ts:59-74 | When every row is too young or already matched, nothing is created. |
| `Recurring.YoungRowsNeverCopied` | lib/services/recurring.ts:56-62 | Rows less than one whole month old are never copied. |
| `Recurring.MatchIgnoresSourceAndPaymentMethod` | lib/services/recurring.ts:65-71 | A current-month row with the same description, category, amount and type suppresses the copy, whatever its source and payment method. |
| `Recurring.SameMatchKeyBothCopied` | lib/services/recurring.ts:43-71 | Two due recurring rows with the same match key and no match both get copied: the check only sees rows fetched before the loop. |
| `Recurring.StoredCopiesAreToday` | lib/services/recurring.ts:75-84 | Once stored, every copy is a recurring row dated today. |
| `Recurring.OriginalsMatched` | lib/services/recurring.ts:65-85 | After the copies are stored, every due original has a look-alike among this month's rows. |
| `Recurring.RerunCreatesNothing` | lib/services/recurring.ts:14-96 | Idempotence: after a run's copies are stored (under any ids), a second run at the same time creates nothing. |
| `Recurring.CurrentMonthRowsSameMonth` | lib/services/recurring.ts:38-48 | The current-month rows depend only on the month of the clock, not on the day. |
| `Recurring.RerunInSameMonthCopiesOnlyNewlyDue` | lib/services/recurring.ts:14-96 | After a run's copies are stored, a later run in the same month copies only originals that were not yet due at the first run and are due now: nothing already copied is copied again, and the stored copies themselves are never copied. |
| `Recurring.EmptyRecurringSetCreatesNothing` | lib/services/recurring.ts:33-35 | Without recurring rows nothing is created. |
| `Recurring.ShouldCheckRecurring` | lib/services/recurring.ts:107-120 | Run when nothing is stored, otherwise only once 30 minutes have passed since the stored time. What this promises over many dashboard loads is stated by `Recurring.RunsSpaced`, `Recurring.FirstLoadRuns` and `Recurring.SpacedLoadsAllRun`. |
| `Recurring.AfterLoad` | lib/services/recurring.ts:104-127 | The stored time after one load, the step that `Recurring.Runs` iterates. What it guarantees over many loads is stated by `Recurring.RunsSpaced` and `Recurring.SpacedLoadsAllRun`. |
| `Recurring.Runs` | lib/services/recurring.ts:104-127 | The loads that run the job, among dashboard loads taken one after the other: at most one run per load, each one of the loads. |
| `Recurring.RunsSpaced` | lib/services/recurring.ts:104-127 | Each run starts at least 30 minutes after the previous run finished (the time it stored), and the first at least 30 minutes after the stored time, whatever the order of the loads. When the clock does not run backwards within a load, run start times are 30 minutes apart too. |
| `Recurring.FirstLoadRuns` | lib/services/recurring.ts:110-112 | With nothing stored, the first dashboard load runs the job. |
| `Recurring.SpacedLoadsAllRun` | lib/services/recurring.ts:104-127 | Loads that each start 30 minutes or more after the previous load finished (the first one after the stored time) are never throttled: every one of them runs the job. |
| `Recurring.CheckTimestamp.ShouldCheck` | lib/services/recurring.ts:107-120 | Answers the throttle for the stored time and changes nothing. The guarantee this gives over successive loads is `Recurring.RunsSpaced`. |
| `Recurring.CheckTimestamp.Update` | lib/services/recurring.ts:125-127 | Stores the current time. |
| `Recurring.CheckTimestamp.DashboardLoad` | lib/services/recurring.ts:104-127 | A dashboard load (the dashboard page's mount effect) runs the job exactly when the throttle allows at the load's start time, then stores the time read after the job finished; a throttled load changes nothing. Successive loads therefore run as `Recurring.Runs` says. |
| `TransactionsView.Filtered` | hooks/useTransactions.ts:139-149 | The filtered list is no longer than the ledger and holds exactly the rows passing the type, non-empty category and recurring-only filters. |
| `TransactionsView.FilteredAppend` | hooks/useTransactions.ts:139-149 | Filtering keeps the relative order of the rows. |
| `TransactionsView.DefaultFiltersKeepAll` | hooks/useTransactions.ts:50-54 | The initial filters keep every row, in order. |
| `TransactionsView.EmptyCategoryIgnored` | hooks/useTransactions.ts:144-146 | An empty category string filters nothing, like no category. |
| `TransactionsView.SortRows` | hooks/useTransactions.ts:150-158 | The sort as a stable insertion sort by date or amount. Its meaning is stated by `TransactionsView.SortRowsSortedPermutation` and `TransactionsView.SortRowsStable`. |
| `TransactionsView.SortRowsSortedPermutation` | hooks/useTransactions.ts:150-158 | The sort returns a permutation of its input, ordered by date or amount, ascending or descending. |
| `TransactionsView.InsertSortedStable` | hooks/useTransactions.ts:150-158 | Inserting a row puts it after every row with an equal key. |
| `TransactionsView.SortRowsStable` | hooks/useTransactions.ts:150-158 | Rows with equal keys keep their input order, in both directions. |
| `TransactionsView.FilteredAndSorted` | hooks/useTransactions.ts:139-160 | The displayed list: the filtered rows, then sorted. Its meaning is stated by `TransactionsView.FilteredAndSortedMeaning`. |
| `TransactionsView.FilteredAndSortedMeaning` | hooks/useTransactions.ts:139-160 | The displayed list is sorted, a permutation of the filtered rows, and holds exactly the rows that pass the filters. |
| `TransactionsView.DisplayIgnoresInsertPosition` | hooks/useTransactions.ts:111-160 | Prepending a realtime row displays the same rows, counted with multiplicity, as appending it. Only the order among rows with equal sort keys can differ. |
| `TransactionsView.TotalPages` | hooks/useTransactions.ts:166-168 | The page count is ceil(n / 10): 0 exactly for an empty list, and otherwise the least count whose pages hold n rows. |
| `TransactionsView.Slice` | hooks/useTransactions.ts:171-174 | JavaScript `slice`: negative indices count from the end and everything is cut to the list. `TransactionsView.PageBounds` states what it gives for a page. |
| `TransactionsView.Page` | hooks/useTransactions.ts:169-174 | The rows of page p. Its meaning is stated by `TransactionsView.PageAtMostTen`, `TransactionsView.PageBounds` and `TransactionsView.PagesCoverList`. |
| `TransactionsView.PageAtMostTen` | hooks/useTransactions.ts:169-174 | Any page, even one out of range, shows at most 10 rows. |
| `TransactionsView.PageBounds` | hooks/useTransactions.ts:169-174 | Page p ≥ 1 shows rows [(p−1)·10, p·10), cut to the list. |
| `TransactionsView.PagesInRangeNonEmpty` | hooks/useTransactions.ts:166-174 | Every page from 1 to the page count shows at least one row. |
| `TransactionsView.PagesCoverList` | hooks/useTransactions.ts:166-174 | Pages 1 to the page count, concatenated, are the whole list. |
| `TransactionsView.ApplyInsert` | hooks/useTransactions.ts:111-113 | INSERT puts the row at the head and keeps the rest: the length grows by exactly 1. |
| `TransactionsView.ApplyUpdate` | hooks/useTransactions.ts:114-120 | UPDATE keeps the length and every id. Rows with the event's id become the event's row, and all others are unchanged. |
| `TransactionsView.ApplyDelete` | hooks/useTransactions.ts:121-126 | DELETE keeps exactly the rows with another id, and never lengthens the list. |
| `TransactionsView.ApplyEvent` | hooks/useTransactions.ts:110-127 | Each realtime event changes the list as `TransactionsView.ApplyInsert`, `TransactionsView.ApplyUpdate` or `TransactionsView.ApplyDelete` state for its kind. |
| `TransactionsView.InsertTwiceDuplicates` | hooks/useTransactions.ts:111-113 | A repeated INSERT leaves two more copies of the row: there is no de-duplication. |
| `TransactionsView.UpdateUnknownIdNoChange` | hooks/useTransactions.ts:114-120 | An UPDATE for an unknown id changes nothing. |
| `TransactionsView.UpdateIdempotent` | hooks/useTransactions.ts:114-120 | Delivering an UPDATE twice is the same as once. |
| `TransactionsView.DeleteAppend` | hooks/useTransactions.ts:121-126 | DELETE works on each part of the list separately, so the survivors keep their order. |
| `TransactionsView.DeleteIdempotent` | hooks/useTransactions.ts:121-126 | Delivering a DELETE twice is the same as once. |
| `TransactionsView.DeleteUnknownIdNoChange` | hooks/useTransactions.ts:121-126 | A DELETE for an unknown id changes nothing. |
| `TransactionsView.InsertThenDelete` | hooks/useTransactions.ts:111-126 | An INSERT of a row with a fresh id followed by its DELETE restores the list. |
| `TransactionsView.TransactionsState.constructor` | hooks/useTransactions.ts:46-54 | The hook starts with no rows, loading, no error, page 1 and the default filters. |
| `TransactionsView.TransactionsState.Refetch` | hooks/useTransactions.ts:63-87 | A fetch replaces the rows and clears the error. A failure keeps the rows and records the message. Loading ends either way. |
| `TransactionsView.TransactionsState.OnRealtime` | hooks/useTransactions.ts:110-127 | An event changes the rows as specified for its kind, and nothing else. |
| `TransactionsView.TransactionsState.SetFilters` | hooks/useTransactions.ts:162-164 | A filter change sets the filters and resets the page to 1, so the first page of the new list is shown. |
| `TransactionsView.TransactionsState.SetCurrentPage` | hooks/useTransactions.ts:49-49 | The page changes and nothing else does. |
| `TransactionDialogs.IncomeDraft` | hooks/useTransactionDialogs.ts:85-94 | A new income row has type income, no payment method and the form's source. An empty category or description becomes null, and it is recurring only when ticked. |
| `TransactionDialogs.ExpenseDraft` | hooks/useTransactionDialogs.ts:114-123 | A new expense row has type expense, no source, and the form's category and payment method. An empty description becomes null, and it is recurring only when ticked. |
| `TransactionDialogs.IncomeUpdate` | hooks/useTransactionDialogs.ts:76-83 | An income edit writes the same amount, source, category, date, description and recurring flag as adding the same form would, and leaves the type and payment method as they are. |
| `TransactionDialogs.ExpenseUpdate` | hooks/useTransactionDialogs.ts:105-112 | An expense edit writes the same amount, category, payment method, date, description and recurring flag as adding the same form would, and leaves the type and source as they are. |
| `TransactionDialogs.IncomeSubmitCall` | hooks/useTransactionDialogs.ts:75-95 | The income form updates exactly when an income row is being edited, and then that row. Otherwise it adds an income row with no payment method. |
| `TransactionDialogs.ExpenseSubmitCall` | hooks/useTransactionDialogs.ts:104-124 | The expense form updates exactly when an expense row is being edited. Otherwise it adds an expense row with no source. |
| `TransactionDialogs.CrossTypeSubmitAdds` | hooks/useTransactionDialogs.ts:75-95 | Submitting the income form while an expense row is being edited adds a new row instead of updating. |
| `TransactionDialogs.AcceptedIncomeIsStored` | hooks/useTransactionDialogs.ts:85-94 | An accepted income form with a calendar date is stored as a positive income row without a payment method. |
| `TransactionDialogs.AcceptedExpenseIsStored` | hooks/useTransactionDialogs.ts:114-123 | An accepted expense form with a calendar date is stored as a positive expense row with a non-empty category. |
| `TransactionDialogs.DialogState.constructor` | hooks/useTransactionDialogs.ts:40-47 | All dialogs start closed, with nothing being edited or deleted. |
| `TransactionDialogs.DialogState.HandleAddIncome` | hooks/useTransactionDialogs.ts:49-52 | Clears the row being edited and opens the income dialog. Nothing else changes. |
| `TransactionDialogs.DialogState.HandleAddExpense` | hooks/useTransactionDialogs.ts:54-57 | Clears the row being edited and opens the expense dialog. Nothing else changes. |
| `TransactionDialogs.DialogState.HandleEditTransaction` | hooks/useTransactionDialogs.ts:59-66 | Stores the row and opens the income dialog for income, the expense dialog for any other type. |
| `TransactionDialogs.DialogState.HandleDeleteTransaction` | hooks/useTransactionDialogs.ts:68-71 | Records (type, id) as the pending delete and opens the delete dialog. |
| `TransactionDialogs.DialogState.HandleIncomeSubmit` | hooks/useTransactionDialogs.ts:73-100 | Makes exactly the specified call. On success the row being edited is cleared. On failure the error is passed on and the state is kept. |
| `TransactionDialogs.DialogState.HandleExpenseSubmit` | hooks/useTransactionDialogs.ts:102-129 | Same as the income submit, with the expense call. |
| `TransactionDialogs.DialogState.ConfirmDelete` | hooks/useTransactionDialogs.ts:131-137 | Without a pending delete, nothing happens. Otherwise it makes one delete call, and only after success it closes the dialog and clears the pending delete. |
| `TransactionDialogs.DialogState.SetIncomeDialogOpen` | hooks/useTransactionDialogs.ts:40-40 | Sets only the income dialog flag. |
| `TransactionDialogs.DialogState.SetExpenseDialogOpen` | hooks/useTransactionDialogs.ts:41-41 | Sets only the expense dialog flag. |
| `TransactionDialogs.DialogState.SetDeleteDialogOpen` | hooks/useTransactionDialogs.ts:42-42 | Sets only the delete dialog flag. |
| `TransactionDialogs.EditThenSubmitIncome` | hooks/useTransactionDialogs.ts:59-100 | Editing an income row and submitting makes exactly one update of that row and ends the edit. |
| `TransactionDialogs.AddAfterAbandonedEdit` | hooks/useTransactionDialogs.ts:54-129 | After an abandoned edit, "add expense" followed by a submit adds a row instead of updating the old one. |
| `Validations.IncomeIssues` | lib/validations.ts:3-10 | The issues the income schema reports. `Validations.IncomeSchemaAccepts` and `Validations.IncomeIssuesAreReal` state when there are none and that each one is real. |
| `Validations.ExpenseIssues` | lib/validations.ts:14-21 | The issues the expense schema reports. `Validations.ExpenseSchemaAccepts` states when there are none. |
| `Validations.WishlistIssues` | lib/validations.ts:25-30 | The issues the wishlist schema reports. `Validations.WishlistSchemaAccepts` states when there are none. |
| `Validations.IncomeSchemaAccepts` | lib/validations.ts:3-10 | An income form is accepted exactly when its amount is positive and its source and date are non-empty. |
| `Validations.ExpenseSchemaAccepts` | lib/validations.ts:14-21 | An expense form is accepted exactly when its amount is positive and its category, payment method and date are non-empty. |
| `Validations.WishlistSchemaAccepts` | lib/validations.ts:25-30 | A wishlist form is accepted exactly when it has a name, a positive cost, a whole priority in 1..3 and a whole necessity in 1..5. |
| `Validations.IncomeIssuesAreReal` | lib/validations.ts:3-10 | Every income issue names one of the checked fields, and that field really fails its check. |
| `Validations.ZeroAmountRefused` | lib/validations.ts:4-27 | A zero amount or cost is refused: positivity is strict. |
| `Validations.DateFormatNotChecked` | lib/validations.ts:7-7 | A date that is not a calendar date still passes the income schema. |
| `Validations.AcceptedWishlistWeights` | lib/validations.ts:25-30 | An accepted wishlist form gives the purchase scorer weights inside their ranges. |
| `CategoryColors.ToLower` | lib/utils/category-colors.ts:31-31 | Lower-casing keeps the length and maps each letter by itself. |
| `CategoryColors.ToLowerIdempotent` | lib/utils/category-colors.ts:31-31 | Lower-casing twice is lower-casing once. |
| `CategoryColors.GetCategoryColor` | lib/utils/category-colors.ts:4-33 | The empty name gets the gray default. A non-empty name gets the colour of its lower-cased form when that is in the table, an inherited object value when it is "constructor" or "__proto__", and `undefined` otherwise. |
| `CategoryColors.CategoryCaseInsensitive` | lib/utils/category-colors.ts:30-32 | The lookup ignores letter case. |
| `CategoryColors.UnknownCategoryUndefined` | lib/utils/category-colors.ts:30-32 | Any non-empty name whose lower-cased form is neither in the table nor an inherited key gets `undefined`: there is no fallback colour ("Gift" is one). |
| `CategoryColors.MixedCaseKeysUnreachable` | lib/utils/category-colors.ts:30-32 | No name lower-cases to an inherited key with an upper-case letter, such as "toString", so only "constructor" and "__proto__" reach the prototype. |
| `CategoryColors.ConstructorIsInherited` | lib/utils/category-colors.ts:30-32 | "Constructor" reaches the inherited `constructor` value, not a colour and not `undefined`. |
| `CategoryColors.UpperCaseCategoryFound` | lib/utils/category-colors.ts:30-32 | An upper-case name finds its lower-case entry. |
| `CategoryColors.PriorityColorsDistinct` | lib/utils/category-colors.ts:38-45 | Priorities 1..3 get distinct colours, and everything else looks like 1. |
| `CategoryColors.NecessityColorsDistinct` | lib/utils/category-colors.ts:50-59 | Necessities 1..5 get distinct colours, and everything else looks like 1. |
| `RouteGuard.IsAuthorized` | lib/supabase/middleware.ts:41-44 | A user is present and its email or its id is the configured one, with strict equality. The consequences are stated by `RouteGuard.UnsetEmailAdmitsEmaillessUser` and the redirect lemmas. |
| `RouteGuard.RouteDecision` | lib/supabase/middleware.ts:47-90 | A redirect only ever goes to "/login", "/unauthorized" or "/", and a path under "/api/auth" always passes. Each rule is stated exactly by the lemmas below. |
| `RouteGuard.CheckAuthorization` | lib/supabase/middleware.ts:93-98 | `checkAuthorization` gives the same answer as the middleware's authorisation test for the user with that id and that email. |
| `RouteGuard.NoUserGoesToLogin` | lib/supabase/middleware.ts:47-55 | The request goes to "/login" exactly when there is no user and the path starts with neither "/login" nor "/api/auth". |
| `RouteGuard.UnauthorisedUserGoesToUnauthorized` | lib/supabase/middleware.ts:58-68 | The request goes to "/unauthorized" exactly when a user is present but not authorised and the path starts with none of the three exempt prefixes. |
| `RouteGuard.AuthorisedUserLeavesLogin` | lib/supabase/middleware.ts:71-75 | The request goes to "/" exactly when an authorised user asks for a "/login" path. |
| `RouteGuard.OtherwisePass` | lib/supabase/middleware.ts:47-90 | The request passes through exactly when no redirect rule applies. |
| `RouteGuard.RedirectTargetPasses` | lib/supabase/middleware.ts:47-75 | There are no redirect loops: the target of a redirect passes for the same user. |
| `RouteGuard.PrefixMatching` | lib/supabase/middleware.ts:47-75 | Matching is by prefix, so "/login-x" is handled exactly like "/login". |
| `RouteGuard.UnsetEmailAdmitsEmaillessUser` | lib/supabase/middleware.ts:41-44 | With the authorised email unset, a signed-in user without an email counts as authorised, because strict equality matches two unset values. |
| `RouteGuard.CheckAgreesWithMiddleware` | lib/supabase/middleware.ts:41-98 | `checkAuthorization` agrees with the middleware's test for a user whose email is known. |

## Left out

- Network, auth and storage calls are parameters:
  - the store (the Supabase queries and inserts), `auth.getUser`, and the cookie plumbing of the middleware;
  - the fetched rows, the user, and whether each call fails.
  - The CRUD services and client construction are not part of this model.
- The realtime subscription itself (channel set-up, transport, async ordering) is left out. Only the list change for each delivered event is modelled, and every handler runs to completion before the next.
- Floating point is not modelled. Amounts and rates are exact reals: no rounding artefacts, NaN or infinities.
- Display formatting is left out: `toFixed(2)`, the "MMM yyyy" and "MMM dd" labels, and `formatCurrency` in the "Exceeds Safe Limit" text.
  - Month buckets carry their year and month numbers.
  - Day entries carry their day number.
  - The status carries the limit as a number.
- Time zones are not modelled. Stored dates are calendar dates, and the clock is a calendar date plus milliseconds of that day. The UTC/local difference between `parseISO`, `new Date(string)` and `toISOString()` is left out.
- Rows with a date string that does not parse are not modelled: a `Transaction` always has a valid date. Drafts keep the string, and `Ledger.Store` refuses the ones that do not parse.
- Calendar.MonthsBetween: compares calendar months and days of the month only. The time of day and the end-of-month adjustments of date-fns' `differenceInMonths` are left out.
- Calendar.IsoDateRoundTrip: holds for years 0..9999 only. Other years use the six-digit signed form.
- Analytics.GroupTransactionsByMonth: requires `monthsCount >= 1`. For smaller counts the interval's start lies after now, and date-fns' interval behaviour is not modelled.
- Recurring.CheckTimestamp.DashboardLoad: loads are modelled one at a time, each one's check, job and store finishing before the next load starts. Overlapping loads (two tabs, or the effect run twice before the first job finishes) can both pass the throttle before either stores its time. Each job then copies every due row, so the copies are duplicated. `Recurring.Runs`, `Recurring.RunsSpaced`, `Recurring.SpacedLoadsAllRun` and `Recurring.RerunCreatesNothing` hold only for loads taken one after the other.
- Recurring.CheckTimestamp.DashboardLoad: the job's own result, the toast and the refetch after it are left out. The timestamp is stored whatever the job returned, as in the source.
- Recurring.ShouldCheckRecurring: takes the stored value as a number of milliseconds. A stored string that does not parse as a date (a NaN comparison in the source, so never true) is not modelled.
- The sort is JavaScript's built-in stable `Array.prototype.sort`. It is modelled as a stable insertion sort on a sequence, so sorting in place on the array and the engine's own algorithm are not modelled.
- CategoryColors.ToLower: lower-cases ASCII letters only. Unicode case mapping is not modelled.
- CategoryColors.GetCategoryColor: for "constructor" and "__proto__" the source returns an inherited object value, not a string. The model marks that case but does not model the value itself.
- CategoryColors.GetPriorityColor: takes an integer key. A fractional number, which the source also sends to the fallback, is not modelled.
- The `loading` flags, toasts and console logging have no bearing on the computed results and are left out.
- The investment projection, the wishlist services and the UI components are not part of this model.

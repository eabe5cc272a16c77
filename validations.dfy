/**
 * The three zod form schemas as issue lists: a form is accepted exactly
 * when it produces no issue. Every check of a field is run, field after
 * field, as zod does for an object schema.
 */
module Validations {
  import opened Common
  import opened Calendar
  import Wishlist

  /** What a failed check was; the messages of the source are kept where it gives one. */
  datatype Check = Positive | NonEmpty | IsInteger | AtLeast(bound: int) | AtMost(bound: int)

  datatype Issue = Issue(path: string, check: Check, message: string)

  datatype IncomeForm = IncomeForm(amount: real, source: string, category: Option<string>,
                                   date: string, description: Option<string>, isRecurring: Option<bool>)

  datatype ExpenseForm = ExpenseForm(amount: real, category: string, paymentMethod: string,
                                     date: string, description: Option<string>, isRecurring: Option<bool>)

  /** Priority and necessity arrive as JavaScript numbers, so they may be fractional. */
  datatype WishlistForm = WishlistForm(itemName: string, cost: real, priority: real, necessity: real)

  function CheckPositive(path: string, x: real, message: string): seq<Issue>
  {
    if x > 0.0 then [] else [Issue(path, Positive, message)]
  }

  function CheckNonEmpty(path: string, s: string, message: string): seq<Issue>
  {
    if |s| >= 1 then [] else [Issue(path, NonEmpty, message)]
  }

  predicate IsWhole(x: real)
  {
    x.Floor as real == x
  }

  /** `z.number().int().min(1).max(hi, message)`. */
  function CheckWholeInRange(path: string, x: real, hi: int, message: string): seq<Issue>
  {
    (if IsWhole(x) then [] else [Issue(path, IsInteger, "Expected integer, received float")])
    + (if x >= 1.0 then [] else [Issue(path, AtLeast(1), "Number must be greater than or equal to 1")])
    + (if x <= hi as real then [] else [Issue(path, AtMost(hi), message)])
  }

  function IncomeIssues(f: IncomeForm): seq<Issue>
  {
    CheckPositive("amount", f.amount, "Amount must be positive")
    + CheckNonEmpty("source", f.source, "Source is required")
    + CheckNonEmpty("date", f.date, "Date is required")
  }

  function ExpenseIssues(f: ExpenseForm): seq<Issue>
  {
    CheckPositive("amount", f.amount, "Amount must be positive")
    + CheckNonEmpty("category", f.category, "Category is required")
    + CheckNonEmpty("paymentMethod", f.paymentMethod, "Payment method is required")
    + CheckNonEmpty("date", f.date, "Date is required")
  }

  function WishlistIssues(f: WishlistForm): seq<Issue>
  {
    CheckNonEmpty("itemName", f.itemName, "Item name is required")
    + CheckPositive("cost", f.cost, "Cost must be positive")
    + CheckWholeInRange("priority", f.priority, 3, "Priority must be between 1-3")
    + CheckWholeInRange("necessity", f.necessity, 5, "Necessity must be between 1-5")
  }

  /** The income schema accepts exactly the forms with a positive amount, a source and a date; the rest is optional. */
  lemma IncomeSchemaAccepts(f: IncomeForm)
    ensures IncomeIssues(f) == [] <==> f.amount > 0.0 && f.source != "" && f.date != ""
  {
  }

  /** The expense schema accepts exactly the forms with a positive amount, a category, a payment method and a date. */
  lemma ExpenseSchemaAccepts(f: ExpenseForm)
    ensures ExpenseIssues(f) == [] <==> f.amount > 0.0 && f.category != "" && f.paymentMethod != "" && f.date != ""
  {
  }

  /** The wishlist schema accepts exactly the forms with a name, a positive cost, a whole priority in 1..3 and a whole necessity in 1..5. */
  lemma WishlistSchemaAccepts(f: WishlistForm)
    ensures WishlistIssues(f) == [] <==>
      && f.itemName != "" && f.cost > 0.0
      && IsWhole(f.priority) && 1.0 <= f.priority <= 3.0
      && IsWhole(f.necessity) && 1.0 <= f.necessity <= 5.0
  {
  }

  /** Each issue names a field that really fails its check. */
  lemma IncomeIssuesAreReal(f: IncomeForm, i: Issue)
    requires i in IncomeIssues(f)
    ensures i.path == "amount" ==> f.amount <= 0.0
    ensures i.path == "source" ==> f.source == ""
    ensures i.path == "date" ==> f.date == ""
    ensures i.path in {"amount", "source", "date"}
  {
  }

  /** Positivity is strict: an amount or a cost of zero is refused. */
  lemma ZeroAmountRefused(f: IncomeForm, g: ExpenseForm, w: WishlistForm)
    requires f.amount == 0.0 && g.amount == 0.0 && w.cost == 0.0
    ensures Issue("amount", Positive, "Amount must be positive") in IncomeIssues(f)
    ensures Issue("amount", Positive, "Amount must be positive") in ExpenseIssues(g)
    ensures Issue("cost", Positive, "Cost must be positive") in WishlistIssues(w)
  {
    assert IncomeIssues(f)[0] == Issue("amount", Positive, "Amount must be positive");
    assert ExpenseIssues(g)[0] == Issue("amount", Positive, "Amount must be positive");
    var w0 := CheckNonEmpty("itemName", w.itemName, "Item name is required");
    assert WishlistIssues(w)[|w0|] == Issue("cost", Positive, "Cost must be positive");
  }

  /** The date is only checked for being non-empty: a form whose date is not a calendar date is accepted. */
  lemma DateFormatNotChecked()
    ensures var f := IncomeForm(100.0, "Salary", None, "soon", None, None);
      IncomeIssues(f) == [] && ParseIsoDate(f.date) == None
  {
  }

  /** An accepted wishlist form gives the purchase scorer weights inside their ranges. */
  lemma AcceptedWishlistWeights(f: WishlistForm)
    requires WishlistIssues(f) == []
    ensures f.cost > 0.0
    ensures 2.0 <= Wishlist.NecessityScore(f.necessity.Floor) <= 10.0
    ensures 3.33 <= Wishlist.PriorityScore(f.priority.Floor) <= 10.0
  {
    WishlistSchemaAccepts(f);
    Wishlist.WeightRanges(f.priority.Floor, f.necessity.Floor);
  }
}

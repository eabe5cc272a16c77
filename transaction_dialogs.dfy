/**
 * The useTransactionDialogs hook: five pieces of dialog state, the handlers
 * that update them, and the add / update / delete calls they make. The calls
 * are recorded in a ghost log; whether the awaited call succeeds is a
 * parameter of the handler.
 */
module TransactionDialogs {
  import opened Common
  import opened Calendar
  import opened Ledger
  import opened Validations

  /** The row a delete dialog is about. */
  datatype PendingDelete = PendingDelete(kind: string, id: string)

  /** TransactionUpdate as each form sends it; income patches carry no payment method, expense patches no source. */
  datatype Patch =
    | IncomePatch(amount: real, source: string, category: Option<string>, date: string,
                  description: Option<string>, isRecurring: bool)
    | ExpensePatch(amount: real, category: Option<string>, paymentMethod: string, date: string,
                   description: Option<string>, isRecurring: bool)

  datatype StoreCall = Add(draft: Draft) | Update(id: string, patch: Patch) | Delete(id: string, kind: string)

  /** The row for a new income: empty optional text becomes null, no payment method, not recurring unless ticked. */
  function IncomeDraft(data: IncomeForm): (d: Draft)
    ensures d.kind == IncomeType && d.amount == data.amount && d.date == data.date
    ensures d.source == Some(data.source) && d.paymentMethod == None
    ensures d.category.Some? <==> Truthy(data.category)
    ensures d.description.Some? <==> Truthy(data.description)
    ensures d.isRecurring <==> data.isRecurring == Some(true)
  {
    Draft(IncomeType, data.amount, data.date, OrNull(data.category), OrNull(data.description),
          Some(data.source), None, OrFalse(data.isRecurring))
  }

  /** The row for a new expense: no source, an empty description becomes null. */
  function ExpenseDraft(data: ExpenseForm): (d: Draft)
    ensures d.kind == ExpenseType && d.amount == data.amount && d.date == data.date
    ensures d.category == Some(data.category) && d.paymentMethod == Some(data.paymentMethod)
    ensures d.source == None
    ensures d.description.Some? <==> Truthy(data.description)
    ensures d.isRecurring <==> data.isRecurring == Some(true)
  {
    Draft(ExpenseType, data.amount, data.date, Some(data.category), OrNull(data.description),
          None, Some(data.paymentMethod), OrFalse(data.isRecurring))
  }

  /** The patch of an income edit writes the values an add of the same form would; type and payment method stay. */
  function IncomeUpdate(data: IncomeForm): (p: Patch)
    ensures p.IncomePatch?
    ensures var d := IncomeDraft(data);
      p.amount == d.amount && Some(p.source) == d.source && p.category == d.category
      && p.date == d.date && p.description == d.description && p.isRecurring == d.isRecurring
  {
    IncomePatch(data.amount, data.source, OrNull(data.category), data.date,
                OrNull(data.description), OrFalse(data.isRecurring))
  }

  /** The patch of an expense edit writes the values an add of the same form would; type and source stay. */
  function ExpenseUpdate(data: ExpenseForm): (p: Patch)
    ensures p.ExpensePatch?
    ensures var d := ExpenseDraft(data);
      p.amount == d.amount && p.category == d.category && Some(p.paymentMethod) == d.paymentMethod
      && p.date == d.date && p.description == d.description && p.isRecurring == d.isRecurring
  {
    ExpensePatch(data.amount, Some(data.category), data.paymentMethod, data.date,
                 OrNull(data.description), OrFalse(data.isRecurring))
  }

  /** The call handleIncomeSubmit makes: an update only when an income row is being edited. */
  function IncomeSubmitCall(editing: Option<Transaction>, data: IncomeForm): (c: StoreCall)
    ensures c.Update? <==> editing.Some? && editing.value.kind == IncomeType
    ensures c.Update? ==> c.id == editing.value.id && c.patch.IncomePatch?
    ensures c.Add? ==> c.draft.kind == IncomeType && c.draft.paymentMethod == None
  {
    if editing.Some? && editing.value.kind == IncomeType then Update(editing.value.id, IncomeUpdate(data))
    else Add(IncomeDraft(data))
  }

  /** The call handleExpenseSubmit makes: an update only when an expense row is being edited. */
  function ExpenseSubmitCall(editing: Option<Transaction>, data: ExpenseForm): (c: StoreCall)
    ensures c.Update? <==> editing.Some? && editing.value.kind == ExpenseType
    ensures c.Update? ==> c.id == editing.value.id && c.patch.ExpensePatch?
    ensures c.Add? ==> c.draft.kind == ExpenseType && c.draft.source == None
  {
    if editing.Some? && editing.value.kind == ExpenseType then Update(editing.value.id, ExpenseUpdate(data))
    else Add(ExpenseDraft(data))
  }

  /** Submitting the income form while an expense row is being edited adds a new income row and leaves the expense alone. */
  lemma CrossTypeSubmitAdds(t: Transaction, data: IncomeForm)
    requires t.kind == ExpenseType
    ensures IncomeSubmitCall(Some(t), data) == Add(IncomeDraft(data))
  {
  }

  /** An accepted income form with a calendar date is stored as a positive income row. */
  lemma AcceptedIncomeIsStored(data: IncomeForm, id: string)
    requires IncomeIssues(data) == [] && ParseIsoDate(data.date).Some?
    ensures var r := Store(IncomeDraft(data), id);
      r.Some? && IsIncome(r.value) && r.value.amount > 0.0 && r.value.paymentMethod == None
  {
    IncomeSchemaAccepts(data);
  }

  /** An accepted expense form with a calendar date is stored as a positive expense row with its category. */
  lemma AcceptedExpenseIsStored(data: ExpenseForm, id: string)
    requires ExpenseIssues(data) == [] && ParseIsoDate(data.date).Some?
    ensures var r := Store(ExpenseDraft(data), id);
      r.Some? && !IsIncome(r.value) && r.value.amount > 0.0
      && r.value.category == Some(data.category) && r.value.category != Some("")
  {
    ExpenseSchemaAccepts(data);
  }

  class DialogState {
    var incomeDialogOpen: bool
    var expenseDialogOpen: bool
    var deleteDialogOpen: bool
    var editingTransaction: Option<Transaction>
    var deletingTransaction: Option<PendingDelete>
    /** Every add, update and delete call made so far, in order. */
    ghost var calls: seq<StoreCall>

    constructor ()
      ensures !incomeDialogOpen && !expenseDialogOpen && !deleteDialogOpen
      ensures editingTransaction == None && deletingTransaction == None && calls == []
    {
      incomeDialogOpen, expenseDialogOpen, deleteDialogOpen := false, false, false;
      editingTransaction, deletingTransaction := None, None;
      calls := [];
    }

    method HandleAddIncome()
      modifies this
      ensures editingTransaction == None && incomeDialogOpen
      ensures expenseDialogOpen == old(expenseDialogOpen) && deleteDialogOpen == old(deleteDialogOpen)
      ensures deletingTransaction == old(deletingTransaction) && calls == old(calls)
    {
      editingTransaction := None;
      incomeDialogOpen := true;
    }

    method HandleAddExpense()
      modifies this
      ensures editingTransaction == None && expenseDialogOpen
      ensures incomeDialogOpen == old(incomeDialogOpen) && deleteDialogOpen == old(deleteDialogOpen)
      ensures deletingTransaction == old(deletingTransaction) && calls == old(calls)
    {
      editingTransaction := None;
      expenseDialogOpen := true;
    }

    /** Opens the dialog of the row's own type; every type other than income opens the expense dialog. */
    method HandleEditTransaction(t: Transaction)
      modifies this
      ensures editingTransaction == Some(t)
      ensures IsIncome(t) ==> incomeDialogOpen && expenseDialogOpen == old(expenseDialogOpen)
      ensures !IsIncome(t) ==> expenseDialogOpen && incomeDialogOpen == old(incomeDialogOpen)
      ensures deleteDialogOpen == old(deleteDialogOpen) && deletingTransaction == old(deletingTransaction)
      ensures calls == old(calls)
    {
      editingTransaction := Some(t);
      if t.kind == IncomeType {
        incomeDialogOpen := true;
      } else {
        expenseDialogOpen := true;
      }
    }

    method HandleDeleteTransaction(t: Transaction)
      modifies this
      ensures deletingTransaction == Some(PendingDelete(t.kind, t.id)) && deleteDialogOpen
      ensures incomeDialogOpen == old(incomeDialogOpen) && expenseDialogOpen == old(expenseDialogOpen)
      ensures editingTransaction == old(editingTransaction) && calls == old(calls)
    {
      deletingTransaction := Some(PendingDelete(t.kind, t.id));
      deleteDialogOpen := true;
    }

    /**
     * handleIncomeSubmit. `storeOk` is whether the awaited call succeeds; on
     * failure the error is rethrown (ok is false) and the edited row is kept.
     */
    method HandleIncomeSubmit(data: IncomeForm, storeOk: bool) returns (ok: bool)
      modifies this
      ensures calls == old(calls) + [IncomeSubmitCall(old(editingTransaction), data)]
      ensures ok == storeOk
      ensures editingTransaction == if storeOk then None else old(editingTransaction)
      ensures incomeDialogOpen == old(incomeDialogOpen) && expenseDialogOpen == old(expenseDialogOpen)
      ensures deleteDialogOpen == old(deleteDialogOpen) && deletingTransaction == old(deletingTransaction)
    {
      if editingTransaction.Some? && editingTransaction.value.kind == IncomeType {
        calls := calls + [Update(editingTransaction.value.id, IncomeUpdate(data))];
      } else {
        calls := calls + [Add(IncomeDraft(data))];
      }
      if !storeOk {
        return false;
      }
      editingTransaction := None;
      ok := true;
    }

    /** handleExpenseSubmit, with the same error policy. */
    method HandleExpenseSubmit(data: ExpenseForm, storeOk: bool) returns (ok: bool)
      modifies this
      ensures calls == old(calls) + [ExpenseSubmitCall(old(editingTransaction), data)]
      ensures ok == storeOk
      ensures editingTransaction == if storeOk then None else old(editingTransaction)
      ensures incomeDialogOpen == old(incomeDialogOpen) && expenseDialogOpen == old(expenseDialogOpen)
      ensures deleteDialogOpen == old(deleteDialogOpen) && deletingTransaction == old(deletingTransaction)
    {
      if editingTransaction.Some? && editingTransaction.value.kind == ExpenseType {
        calls := calls + [Update(editingTransaction.value.id, ExpenseUpdate(data))];
      } else {
        calls := calls + [Add(ExpenseDraft(data))];
      }
      if !storeOk {
        return false;
      }
      editingTransaction := None;
      ok := true;
    }

    /**
     * confirmDelete: nothing happens without a pending delete; otherwise the
     * delete is called and, once it succeeds, the dialog closes and the
     * pending delete is cleared.
     */
    method ConfirmDelete(storeOk: bool) returns (ok: bool)
      modifies this
      ensures old(deletingTransaction) == None ==>
        ok && calls == old(calls) && deletingTransaction == None && deleteDialogOpen == old(deleteDialogOpen)
      ensures old(deletingTransaction).Some? ==>
        var p := old(deletingTransaction).value;
        calls == old(calls) + [Delete(p.id, p.kind)] && ok == storeOk
        && (storeOk ==> deletingTransaction == None && !deleteDialogOpen)
        && (!storeOk ==> deletingTransaction == old(deletingTransaction) && deleteDialogOpen == old(deleteDialogOpen))
      ensures incomeDialogOpen == old(incomeDialogOpen) && expenseDialogOpen == old(expenseDialogOpen)
      ensures editingTransaction == old(editingTransaction)
    {
      ok := true;
      if deletingTransaction.Some? {
        calls := calls + [Delete(deletingTransaction.value.id, deletingTransaction.value.kind)];
        if !storeOk {
          return false;
        }
        deleteDialogOpen := false;
        deletingTransaction := None;
      }
    }

    method SetIncomeDialogOpen(open: bool)
      modifies this
      ensures incomeDialogOpen == open && expenseDialogOpen == old(expenseDialogOpen)
      ensures deleteDialogOpen == old(deleteDialogOpen) && editingTransaction == old(editingTransaction)
      ensures deletingTransaction == old(deletingTransaction) && calls == old(calls)
    {
      incomeDialogOpen := open;
    }

    method SetExpenseDialogOpen(open: bool)
      modifies this
      ensures expenseDialogOpen == open && incomeDialogOpen == old(incomeDialogOpen)
      ensures deleteDialogOpen == old(deleteDialogOpen) && editingTransaction == old(editingTransaction)
      ensures deletingTransaction == old(deletingTransaction) && calls == old(calls)
    {
      expenseDialogOpen := open;
    }

    method SetDeleteDialogOpen(open: bool)
      modifies this
      ensures deleteDialogOpen == open && incomeDialogOpen == old(incomeDialogOpen)
      ensures expenseDialogOpen == old(expenseDialogOpen) && editingTransaction == old(editingTransaction)
      ensures deletingTransaction == old(deletingTransaction) && calls == old(calls)
    {
      deleteDialogOpen := open;
    }
  }

  /** Edit an income row, then submit the income form: exactly one update of that row, and editing is over. */
  method EditThenSubmitIncome(d: DialogState, t: Transaction, data: IncomeForm)
    requires IsIncome(t)
    modifies d
    ensures d.calls == old(d.calls) + [Update(t.id, IncomeUpdate(data))]
    ensures d.editingTransaction == None && d.incomeDialogOpen
  {
    d.HandleEditTransaction(t);
    var ok := d.HandleIncomeSubmit(data, true);
  }

  /** Pressing "add" after an edit was abandoned creates a row instead of updating the old one. */
  method AddAfterAbandonedEdit(d: DialogState, t: Transaction, data: ExpenseForm)
    modifies d
    ensures d.calls == old(d.calls) + [Add(ExpenseDraft(data))]
  {
    d.HandleEditTransaction(t);
    d.SetExpenseDialogOpen(false);
    d.HandleAddExpense();
    var ok := d.HandleExpenseSubmit(data, true);
  }
}

/**
 * The expense ledger of an organization: the role gate of the form, the save
 * guard, the amount coerced with `Number`, the newest-first order, and the
 * screen's handlers over the organization's expenses collection.
 */
module Expenses {
  import opened Common
  import opened Js
  import opened Sorting
  import opened DocStore
  import opened Organizations

  datatype ExpenseForm = ExpenseForm(description: string, amount: JsNum, category: string, date: string)

  /** A stored expense; `updatedAt` is written by edits only. */
  datatype Expense = Expense(
    description: string,
    amount: JsNum,
    category: string,
    date: string,
    createdAt: Option<Timestamp>,
    updatedAt: Option<Timestamp>)

  datatype ExpenseEntry = ExpenseEntry(id: DocId, expense: Expense)

  /** The empty form: category `Material`, everything else blank. */
  const EmptyExpenseForm := ExpenseForm("", Blank, "Material", "")

  /** `canEdit`: owners, admins and editors see the form and the row buttons. */
  function CanEdit(role: Role): (r: bool)
    ensures r <==> role in {OwnerRole, AdminRole, EditorRole}
    ensures role == ViewerRole || role == "" ==> !r
  {
    role == OwnerRole || role == AdminRole || role == EditorRole
  }

  /** The save guard: a description that is not blank after trimming, a truthy amount, and an organization. */
  predicate SaveAllowed(f: ExpenseForm, orgId: Option<DocId>) {
    !IsBlank(f.description) && Truthy(f.amount) && orgId.Some?
  }

  /** `dataToSave`: the form as entered, the amount converted with `Number`. */
  function ToSave(f: ExpenseForm, createdAt: Option<Timestamp>, updatedAt: Option<Timestamp>): (e: Expense)
    ensures e.description == f.description && e.category == f.category && e.date == f.date
    ensures e.amount.Number? || e.amount.NaN?
    ensures ToNumber(e.amount) == ToNumber(f.amount)
    ensures e.createdAt == createdAt && e.updatedAt == updatedAt
  {
    Expense(f.description, Coerce(f.amount), f.category, f.date, createdAt, updatedAt)
  }

  /** `handleEditClick`: the form filled from a stored expense. */
  function FormOf(e: Expense): ExpenseForm {
    ExpenseForm(e.description, e.amount, e.category, e.date)
  }

  /** Opening a stored expense and saving it unchanged writes the same values back, with a new `updatedAt`. */
  lemma EditRoundTrip(e: Expense, now: Timestamp)
    requires e.amount.Number?
    ensures ToSave(FormOf(e), e.createdAt, Some(now)) == e.(updatedAt := Some(now))
  {
  }

  /** `createdAt?.toDate() || 0`. */
  function CreatedKey(e: ExpenseEntry): real {
    CreatedOrZero(e.expense.createdAt)
  }

  /** A missing `createdAt` sorts as the oldest possible date, after every stored one. */
  lemma MissingCreatedAtSortsLast(snapshot: seq<ExpenseEntry>, i: nat, j: nat)
    requires forall k :: 0 <= k < |snapshot| && snapshot[k].expense.createdAt.Some? ==> snapshot[k].expense.createdAt.value > 0
    requires i < |snapshot| && j < |snapshot|
    requires SortDesc(snapshot, CreatedKey)[i].expense.createdAt.None?
    requires SortDesc(snapshot, CreatedKey)[j].expense.createdAt.Some?
    ensures j < i
  {
    var r := SortDesc(snapshot, CreatedKey);
    assert r[j] in multiset(r);
    assert r[j] in snapshot;
    assert CreatedKey(r[i]) == 0.0 < CreatedKey(r[j]);
  }

  const SaveGuardError := "La descripción y el importe son obligatorios."

  class ExpenseScreen {
    /** The active organization, if there is one. */
    const orgId: Option<DocId>
    /** `organizations/{orgId}/expenses`. */
    const store: Collection<Expense>
    var expenses: seq<ExpenseEntry>
    var isLoading: bool
    var form: ExpenseForm
    var editing: Option<ExpenseEntry>
    var toDelete: Option<ExpenseEntry>

    ghost predicate Valid()
      reads this, store
    {
      store.Valid()
    }

    /** Without an organization there is no subscription and the screen stops loading at once. */
    constructor (orgId: Option<DocId>, store: Collection<Expense>)
      requires store.Valid()
      ensures Valid() && this.orgId == orgId && this.store == store
      ensures expenses == [] && isLoading == orgId.Some?
      ensures form == EmptyExpenseForm && editing == None && toDelete == None
    {
      this.orgId := orgId;
      this.store := store;
      expenses := [];
      isLoading := orgId.Some?;
      form := EmptyExpenseForm;
      editing := None;
      toDelete := None;
    }

    /** A snapshot: the list newest first, a missing `createdAt` counting as 0. */
    method OnSnapshot(snapshot: seq<ExpenseEntry>)
      modifies this
      ensures expenses == SortDesc(snapshot, CreatedKey) && !isLoading
      ensures form == old(form) && editing == old(editing) && toDelete == old(toDelete)
    {
      expenses := SortDesc(snapshot, CreatedKey);
      isLoading := false;
    }

    /** `handleCancelEdit`, also the reset after a save. */
    method HandleCancelEdit()
      modifies this
      ensures editing == None && form == EmptyExpenseForm
      ensures expenses == old(expenses) && isLoading == old(isLoading) && toDelete == old(toDelete)
    {
      editing := None;
      form := EmptyExpenseForm;
    }

    /** `handleEditClick`. */
    method HandleEditClick(e: ExpenseEntry)
      modifies this
      ensures editing == Some(e) && form == FormOf(e.expense)
      ensures expenses == old(expenses) && isLoading == old(isLoading) && toDelete == old(toDelete)
    {
      editing := Some(e);
      form := FormOf(e.expense);
    }

    /**
     * `handleAddOrEditExpense`; `online` says whether the backend takes the
     * write. The handler does not look at the role: only the form's visibility
     * depends on `CanEdit`.
     */
    method HandleAddOrEdit(online: bool, now: Timestamp) returns (outcome: SaveOutcome)
      requires Valid()
      modifies this, store
      ensures Valid()
      ensures outcome == Invalid <==> !SaveAllowed(old(form), orgId)
      ensures outcome == Saved <==> SaveAllowed(old(form), orgId) && online
                                    && (old(editing).None? || old(editing).value.id in old(store.docs))
      ensures outcome == Saved && old(editing).Some? ==>
                var id := old(editing).value.id;
                id in old(store.docs)
                && store.docs == old(store.docs)[id := ToSave(old(form), old(store.docs)[id].createdAt, Some(now))]
      ensures outcome == Saved && old(editing).None? ==>
                exists id: DocId :: id !in old(store.docs) && store.docs == old(store.docs)[id := ToSave(old(form), Some(now), None)]
      ensures outcome != Saved ==> store.docs == old(store.docs)
      ensures outcome == Saved ==> form == EmptyExpenseForm && editing == None
      ensures outcome != Saved ==> form == old(form) && editing == old(editing)
      ensures expenses == old(expenses) && isLoading == old(isLoading) && toDelete == old(toDelete)
    {
      if !SaveAllowed(form, orgId) {
        return Invalid;
      }
      if !online {
        return Failed;
      }
      var f := form;
      match editing {
        case Some(e) =>
          var ok := store.Update(e.id, (x: Expense) => ToSave(f, x.createdAt, Some(now)));
          if !ok {
            return Failed;
          }
        case None =>
          var id := store.Add(ToSave(f, Some(now), None));
      }
      HandleCancelEdit();
      outcome := Saved;
    }

    /** The trash button: select an expense for deletion. */
    method SelectForDelete(e: ExpenseEntry)
      modifies this
      ensures toDelete == Some(e)
      ensures expenses == old(expenses) && form == old(form) && editing == old(editing)
    {
      toDelete := Some(e);
    }

    /** `confirmDelete`: needs a selected expense and an organization; the selection is cleared only on success. */
    method ConfirmDelete(online: bool) returns (deleted: bool)
      requires Valid()
      modifies this, store
      ensures Valid()
      ensures deleted <==> old(toDelete).Some? && orgId.Some? && online
      ensures store.docs == if deleted then old(store.docs) - {old(toDelete).value.id} else old(store.docs)
      ensures toDelete == if deleted then None else old(toDelete)
      ensures expenses == old(expenses) && form == old(form) && editing == old(editing)
    {
      if toDelete.None? || orgId.None? || !online {
        return false;
      }
      store.Delete(toDelete.value.id);
      toDelete := None;
      deleted := true;
    }
  }
}

/** The budget page's form: validating the required fields, building a
    line item from the form, and dispatching it as a new item or as the
    replacement of the item being edited. */
module Budget {
  import opened Util
  import opened Ledger

  /** The form's fields; the number inputs already fall back to 0 when
      they cannot be parsed. */
  datatype ItemForm = ItemForm(
    category: string,
    subcategory: string,
    description: string,
    amount: int,
    actual: int,
    notes: string,
    date: string)

  /** The form as `resetForm` leaves it. */
  function EmptyForm(today: string): (f: ItemForm)
    ensures f.category == "" && f.subcategory == "" && f.description == "" && f.notes == ""
    ensures f.amount == 0 && f.actual == 0 && f.date == today
  {
    ItemForm("", "", "", 0, 0, "", today)
  }

  /** `handleEdit` copies the item into the form. */
  function FormOf(item: BudgetItem): (f: ItemForm)
    ensures f.category == item.category && f.subcategory == item.subcategory
    ensures f.description == item.description && f.amount == item.amount && f.actual == item.actual
    ensures f.notes == item.notes && f.date == item.date
  {
    ItemForm(item.category, item.subcategory, item.description, item.amount, item.actual, item.notes, item.date)
  }

  /** The three required fields are non-empty. Only emptiness is checked:
      the subcategory need not belong to the chosen category. */
  predicate Valid(f: ItemForm)
  {
    f.category != "" && f.subcategory != "" && f.description != ""
  }

  /** `editingId` is truthy: present and not the empty string. */
  predicate Editing(editingId: Option<string>)
  {
    editingId.Some? && editingId.value != ""
  }

  /** The id of the submitted item: the edited item's id, else a fresh one. */
  function SubmitId(editingId: Option<string>, freshId: string): (id: string)
    ensures Editing(editingId) ==> id == editingId.value
    ensures !Editing(editingId) ==> id == freshId
  {
    if Editing(editingId) then editingId.value else freshId
  }

  /** The item `handleSubmit` builds: variance is actual minus amount, and an
      empty date becomes today. */
  function BuildItem(f: ItemForm, id: string, today: string): (item: BudgetItem)
    ensures item.id == id
    ensures item.category == f.category && item.subcategory == f.subcategory && item.description == f.description
    ensures item.amount == f.amount && item.actual == f.actual && item.notes == f.notes
    ensures item.variance == item.actual - item.amount
    ensures item.date == if f.date == "" then today else f.date
  {
    BudgetItem(id, f.category, f.subcategory, f.description, f.amount, f.actual,
               f.actual - f.amount, f.notes, if f.date == "" then today else f.date)
  }

  /** The action a valid submission dispatches. */
  function SubmitAction(f: ItemForm, editingId: Option<string>, freshId: string, today: string): Action
  {
    var item := BuildItem(f, SubmitId(editingId, freshId), today);
    if Editing(editingId) then UpdateItem(item) else AddItem(item)
  }

  /** Adding a valid form appends the built item, whose variance is actual
      minus amount, and keeps the ledger consistent; submitting an edit
      replaces, in place, every item carrying the edited id and leaves the
      others. */
  lemma SubmitEffect(s: BudgetState, f: ItemForm, editingId: Option<string>, freshId: string, today: string)
    requires Consistent(s)
    ensures Consistent(Reduce(s, SubmitAction(f, editingId, freshId, today)))
    ensures !Editing(editingId) ==>
      Reduce(s, SubmitAction(f, editingId, freshId, today)).items == s.items + [BuildItem(f, freshId, today)]
    ensures Editing(editingId) ==>
      var after := Reduce(s, SubmitAction(f, editingId, freshId, today)).items;
      |after| == |s.items| &&
      forall i :: 0 <= i < |s.items| ==>
        after[i] == if s.items[i].id == editingId.value then BuildItem(f, editingId.value, today) else s.items[i]
  {
    ReducePreservesConsistent(s, SubmitAction(f, editingId, freshId, today));
    if Editing(editingId) {
      UpdateItemEffect(s, BuildItem(f, editingId.value, today));
    }
  }

  /** Editing an item and submitting the form untouched writes back an
      item equal to the original, as long as its variance was actual minus
      amount and its date non-empty. */
  lemma EditRoundTrip(item: BudgetItem, freshId: string, today: string)
    requires item.id != "" && item.date != ""
    requires item.variance == item.actual - item.amount
    ensures SubmitAction(FormOf(item), Some(item.id), freshId, today) == UpdateItem(item)
  {
  }

  /** The budget page's state: the form, the id of the item being edited
      and whether the add form is open, beside the shared ledger store. */
  class BudgetPage {
    const store: Store
    var form: ItemForm
    var editingId: Option<string>
    var isAdding: bool

    constructor (store: Store, today: string)
      ensures this.store == store && form == EmptyForm(today) && editingId == None && !isAdding
    {
      this.store := store;
      form := EmptyForm(today);
      editingId := None;
      isAdding := false;
    }

    /** The "Add Item" button. */
    method StartAdding()
      modifies this
      ensures isAdding && form == old(form) && editingId == old(editingId)
    {
      isAdding := true;
    }

    /** Typing into the form. */
    method SetForm(f: ItemForm)
      modifies this
      ensures form == f && isAdding == old(isAdding) && editingId == old(editingId)
    {
      form := f;
    }

    /** `resetForm`: empty fields, today's date, add form closed. */
    method ResetForm(today: string)
      modifies this
      ensures form == EmptyForm(today) && !isAdding && editingId == old(editingId)
    {
      form := EmptyForm(today);
      isAdding := false;
    }

    /** `handleSubmit`. An invalid form (the alert) changes nothing. A valid
        one dispatches UPDATE_ITEM under the edited id, or ADD_ITEM under a
        fresh id, then clears the edited id (only after an update) and
        resets the form. */
    method HandleSubmit(freshId: string, today: string)
      modifies this, store
      ensures !Valid(old(form)) ==>
        form == old(form) && editingId == old(editingId) && isAdding == old(isAdding)
        && store.state == old(store.state)
      ensures Valid(old(form)) ==>
        store.state == Reduce(old(store.state), SubmitAction(old(form), old(editingId), freshId, today))
        && form == EmptyForm(today) && !isAdding
        && editingId == (if Editing(old(editingId)) then None else old(editingId))
    {
      if !Valid(form) {
        return;
      }
      var item := BuildItem(form, SubmitId(editingId, freshId), today);
      if Editing(editingId) {
        store.Dispatch(UpdateItem(item));
        editingId := None;
      } else {
        store.Dispatch(AddItem(item));
      }
      ResetForm(today);
    }

    /** `handleEdit`: remember the item's id and load it into the form. */
    method HandleEdit(item: BudgetItem)
      modifies this
      ensures editingId == Some(item.id) && form == FormOf(item) && isAdding == old(isAdding)
    {
      editingId := Some(item.id);
      form := FormOf(item);
    }

    /** `handleDelete`: dispatches DELETE_ITEM for that id only when the
        user confirms. */
    method HandleDelete(id: string, confirmed: bool)
      modifies store
      ensures confirmed ==> store.state == Reduce(old(store.state), DeleteItem(id))
      ensures !confirmed ==> store.state == old(store.state)
    {
      if confirmed {
        store.Dispatch(DeleteItem(id));
      }
    }

    /** `handleCancel`: reset the form and stop editing. */
    method HandleCancel(today: string)
      modifies this
      ensures form == EmptyForm(today) && !isAdding && editingId == None
    {
      ResetForm(today);
      editingId := None;
    }
  }
}

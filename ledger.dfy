/** The budget ledger: line items, the three running totals and the
    category/subcategory taxonomy, changed only through a six-action
    reducer. The store that owns the single ledger of a session is the
    class `Store` at the end. */
module Ledger {
  import opened Util

  /** One recorded or planned expense. Money is an exact integer. */
  datatype BudgetItem = BudgetItem(
    id: string,
    category: string,
    subcategory: string,
    description: string,
    amount: int,
    actual: int,
    variance: int,
    notes: string,
    date: string)

  datatype BudgetState = BudgetState(
    items: seq<BudgetItem>,
    totalBudget: int,
    totalActual: int,
    totalVariance: int,
    categories: seq<string>,
    subcategories: map<string, seq<string>>)

  datatype Action =
    | AddItem(item: BudgetItem)
    | UpdateItem(item: BudgetItem)
    | DeleteItem(id: string)
    | SetItems(newItems: seq<BudgetItem>)
    | AddCategory(name: string)
    | AddSubcategory(category: string, subcategory: string)

  /** The three money columns the totals are kept for. */
  datatype Column = Amount | Actual | Variance

  function Field(item: BudgetItem, column: Column): int
  {
    match column
    case Amount => item.amount
    case Actual => item.actual
    case Variance => item.variance
  }

  /** The sum of one column over the items, starting from 0. */
  function Total(items: seq<BudgetItem>, column: Column): int
  {
    if items == [] then 0 else Field(items[0], column) + Total(items[1..], column)
  }

  /** The ledger invariant: each running total is the sum of its column. */
  predicate Consistent(s: BudgetState)
  {
    && s.totalBudget == Total(s.items, Amount)
    && s.totalActual == Total(s.items, Actual)
    && s.totalVariance == Total(s.items, Variance)
  }

  predicate NoDuplicates(names: seq<string>)
  {
    forall i, j :: 0 <= i < j < |names| ==> names[i] != names[j]
  }

  const DefaultCategories: seq<string> :=
    ["Above the Line", "Production", "Post-Production", "Other", "Contingency"]

  const DefaultSubcategories: map<string, seq<string>> := map[
    "Above the Line" := ["Director", "Producer", "Writer", "Cast", "Crew"],
    "Production" := ["Equipment", "Location", "Props", "Costumes", "Transportation"],
    "Post-Production" := ["Editing", "Visual Effects", "Sound", "Music", "Color Grading"],
    "Other" := ["Insurance", "Legal", "Marketing", "Distribution"],
    "Contingency" := ["Emergency Fund", "Overages"]]

  /** The state every session starts from: no items, zero totals and the
      five seed categories, each with its own subcategory list. */
  function InitialState(): (s: BudgetState)
    ensures s.items == [] && s.totalBudget == 0 && s.totalActual == 0 && s.totalVariance == 0
    ensures |s.categories| == 5 && NoDuplicates(s.categories)
    ensures forall c :: c in s.categories ==> c in s.subcategories
    ensures Consistent(s)
  {
    BudgetState([], 0, 0, 0, DefaultCategories, DefaultSubcategories)
  }

  /** The state with `items` installed and every total recomputed from
      scratch, as UPDATE_ITEM, DELETE_ITEM and SET_ITEMS do. */
  function WithItems(s: BudgetState, items: seq<BudgetItem>): (r: BudgetState)
    ensures r.items == items && Consistent(r)
    ensures r.categories == s.categories && r.subcategories == s.subcategories
  {
    s.(items := items,
       totalBudget := Total(items, Amount),
       totalActual := Total(items, Actual),
       totalVariance := Total(items, Variance))
  }

  /** Every item whose id is the payload's is swapped for the payload; the
      rest stay where they are. */
  function Replace(items: seq<BudgetItem>, payload: BudgetItem): seq<BudgetItem>
  {
    if items == [] then []
    else [if items[0].id == payload.id then payload else items[0]] + Replace(items[1..], payload)
  }

  /** The items whose id differs from `id`, in their order. */
  function Remove(items: seq<BudgetItem>, id: string): seq<BudgetItem>
  {
    Filter(items, (x: BudgetItem) => x.id != id)
  }

  /** The subcategory list filed under `category`, or the empty list when
      there is none. */
  function SubcategoriesOf(subcategories: map<string, seq<string>>, category: string): seq<string>
  {
    if category in subcategories then subcategories[category] else []
  }

  /** `budgetReducer`: the next state after one action. */
  function Reduce(s: BudgetState, action: Action): BudgetState
  {
    match action
    case AddItem(item) =>
      s.(items := s.items + [item],
         totalBudget := s.totalBudget + item.amount,
         totalActual := s.totalActual + item.actual,
         totalVariance := s.totalVariance + item.variance)
    case UpdateItem(item) => WithItems(s, Replace(s.items, item))
    case DeleteItem(id) => WithItems(s, Remove(s.items, id))
    case SetItems(newItems) => WithItems(s, newItems)
    case AddCategory(name) =>
      s.(categories := s.categories + [name],
         subcategories := s.subcategories[name := []])
    case AddSubcategory(category, subcategory) =>
      s.(subcategories := s.subcategories[category :=
           SubcategoriesOf(s.subcategories, category) + [subcategory]])
  }

  /** The state after dispatching `actions` in order. */
  function Run(s: BudgetState, actions: seq<Action>): BudgetState
  {
    if actions == [] then s
    else Reduce(Run(s, actions[..|actions| - 1]), actions[|actions| - 1])
  }

  // ---------------------------------------------------------------------
  // The totals invariant

  lemma {:induction false} TotalAppend(a: seq<BudgetItem>, b: seq<BudgetItem>, column: Column)
    ensures Total(a + b, column) == Total(a, column) + Total(b, column)
  {
    if a != [] {
      assert (a + b)[1..] == a[1..] + b;
      TotalAppend(a[1..], b, column);
    } else {
      assert a + b == b;
    }
  }

  /** ADD_ITEM raises each total by the payload's value, and what it does
      is exactly what recomputing the totals from scratch would do. */
  lemma AddItemEffect(s: BudgetState, item: BudgetItem)
    ensures Reduce(s, AddItem(item)).items == s.items + [item]
    ensures Reduce(s, AddItem(item)).totalBudget == s.totalBudget + item.amount
    ensures Reduce(s, AddItem(item)).totalActual == s.totalActual + item.actual
    ensures Reduce(s, AddItem(item)).totalVariance == s.totalVariance + item.variance
    ensures Reduce(s, AddItem(item)).categories == s.categories
    ensures Reduce(s, AddItem(item)).subcategories == s.subcategories
    ensures Consistent(s) ==> Reduce(s, AddItem(item)) == WithItems(s, s.items + [item])
  {
    TotalAppend(s.items, [item], Amount);
    TotalAppend(s.items, [item], Actual);
    TotalAppend(s.items, [item], Variance);
  }

  /** Every action keeps the totals equal to the column sums. */
  lemma ReducePreservesConsistent(s: BudgetState, action: Action)
    requires Consistent(s)
    ensures Consistent(Reduce(s, action))
  {
    if action.AddItem? {
      AddItemEffect(s, action.item);
    }
  }

  lemma {:induction false} RunPreservesConsistent(s: BudgetState, actions: seq<Action>)
    requires Consistent(s)
    ensures Consistent(Run(s, actions))
  {
    if actions != [] {
      RunPreservesConsistent(s, actions[..|actions| - 1]);
      ReducePreservesConsistent(Run(s, actions[..|actions| - 1]), actions[|actions| - 1]);
    }
  }

  /** The central invariant: in every state reachable from the initial one,
      after any sequence of actions, the totals are the column sums. */
  lemma EveryReachableStateConsistent(actions: seq<Action>)
    ensures Consistent(Run(InitialState(), actions))
  {
    RunPreservesConsistent(InitialState(), actions);
  }

  /** When every item records variance = actual - amount, so does the total. */
  lemma {:induction false} TotalVarianceIsDifference(items: seq<BudgetItem>)
    requires forall i :: 0 <= i < |items| ==> items[i].variance == items[i].actual - items[i].amount
    ensures Total(items, Variance) == Total(items, Actual) - Total(items, Amount)
  {
    if items != [] {
      TotalVarianceIsDifference(items[1..]);
    }
  }

  // ---------------------------------------------------------------------
  // UPDATE_ITEM

  lemma {:induction false} ReplaceAt(items: seq<BudgetItem>, payload: BudgetItem)
    ensures |Replace(items, payload)| == |items|
    ensures forall i :: 0 <= i < |items| ==>
      Replace(items, payload)[i] == if items[i].id == payload.id then payload else items[i]
  {
    if items != [] {
      ReplaceAt(items[1..], payload);
    }
  }

  /** UPDATE_ITEM keeps length and order, swaps in the payload at every
      position whose id matches (all of them when ids repeat), leaves every
      other item alone and recomputes the totals. */
  lemma UpdateItemEffect(s: BudgetState, payload: BudgetItem)
    ensures |Reduce(s, UpdateItem(payload)).items| == |s.items|
    ensures forall i :: 0 <= i < |s.items| ==>
      Reduce(s, UpdateItem(payload)).items[i] ==
        if s.items[i].id == payload.id then payload else s.items[i]
    ensures Consistent(Reduce(s, UpdateItem(payload)))
    ensures Reduce(s, UpdateItem(payload)).categories == s.categories
    ensures Reduce(s, UpdateItem(payload)).subcategories == s.subcategories
  {
    ReplaceAt(s.items, payload);
  }

  /** UPDATE_ITEM with an id no item carries leaves the items as they were,
      and on a consistent state changes nothing at all. */
  lemma UpdateAbsentIsNoop(s: BudgetState, payload: BudgetItem)
    requires forall i :: 0 <= i < |s.items| ==> s.items[i].id != payload.id
    ensures Reduce(s, UpdateItem(payload)).items == s.items
    ensures Consistent(s) ==> Reduce(s, UpdateItem(payload)) == s
  {
    ReplaceAt(s.items, payload);
  }

  // ---------------------------------------------------------------------
  // DELETE_ITEM

  /** DELETE_ITEM drops every item with that id, keeps every other item as
      often as it occurred, and recomputes the totals. */
  lemma DeleteItemEffect(s: BudgetState, id: string)
    ensures forall x :: multiset(Reduce(s, DeleteItem(id)).items)[x] ==
                        (if x.id == id then 0 else multiset(s.items)[x])
    ensures forall x :: x in Reduce(s, DeleteItem(id)).items <==> x in s.items && x.id != id
    ensures Consistent(Reduce(s, DeleteItem(id)))
    ensures Reduce(s, DeleteItem(id)).categories == s.categories
    ensures Reduce(s, DeleteItem(id)).subcategories == s.subcategories
  {
    var p := (x: BudgetItem) => x.id != id;
    forall x
      ensures multiset(Reduce(s, DeleteItem(id)).items)[x] == if x.id == id then 0 else multiset(s.items)[x]
      ensures x in Reduce(s, DeleteItem(id)).items <==> x in s.items && x.id != id
    {
      FilterCount(s.items, p, x);
      FilterMembership(s.items, p, x);
    }
  }

  /** The survivors of a delete keep their relative order: deleting from a
      concatenation is deleting from each part. */
  lemma DeleteKeepsOrder(a: seq<BudgetItem>, b: seq<BudgetItem>, id: string)
    ensures Remove(a + b, id) == Remove(a, id) + Remove(b, id)
  {
    FilterConcat(a, b, (x: BudgetItem) => x.id != id);
  }

  /** DELETE_ITEM with an id no item carries changes nothing on a
      consistent state. */
  lemma DeleteAbsentIsNoop(s: BudgetState, id: string)
    requires forall i :: 0 <= i < |s.items| ==> s.items[i].id != id
    ensures Reduce(s, DeleteItem(id)).items == s.items
    ensures Consistent(s) ==> Reduce(s, DeleteItem(id)) == s
  {
    FilterKeepsAll(s.items, (x: BudgetItem) => x.id != id);
  }

  // ---------------------------------------------------------------------
  // SET_ITEMS and the taxonomy actions

  /** SET_ITEMS installs the payload verbatim; its totals depend on the
      payload alone, whatever the state before. */
  lemma SetItemsEffect(s: BudgetState, t: BudgetState, newItems: seq<BudgetItem>)
    ensures Reduce(s, SetItems(newItems)).items == newItems
    ensures Consistent(Reduce(s, SetItems(newItems)))
    ensures Reduce(s, SetItems(newItems)).totalBudget == Reduce(t, SetItems(newItems)).totalBudget
    ensures Reduce(s, SetItems(newItems)).totalActual == Reduce(t, SetItems(newItems)).totalActual
    ensures Reduce(s, SetItems(newItems)).totalVariance == Reduce(t, SetItems(newItems)).totalVariance
    ensures Reduce(s, SetItems(newItems)).categories == s.categories
  {
  }

  /** ADD_CATEGORY appends the name even when it is already there, resets
      its subcategory list to empty, and leaves items, totals and every
      other list alone. */
  lemma AddCategoryEffect(s: BudgetState, name: string)
    ensures Reduce(s, AddCategory(name)).categories == s.categories + [name]
    ensures multiset(Reduce(s, AddCategory(name)).categories)[name] == multiset(s.categories)[name] + 1
    ensures SubcategoriesOf(Reduce(s, AddCategory(name)).subcategories, name) == []
    ensures forall c :: c != name ==>
      SubcategoriesOf(Reduce(s, AddCategory(name)).subcategories, c) == SubcategoriesOf(s.subcategories, c)
    ensures Reduce(s, AddCategory(name)).items == s.items
    ensures Reduce(s, AddCategory(name)).totalBudget == s.totalBudget
    ensures Reduce(s, AddCategory(name)).totalActual == s.totalActual
    ensures Reduce(s, AddCategory(name)).totalVariance == s.totalVariance
  {
  }

  /** ADD_SUBCATEGORY appends to the named list (a missing list counts as
      empty), never touches the category list, so it may create a list for
      a name that is not a category. */
  lemma AddSubcategoryEffect(s: BudgetState, category: string, subcategory: string)
    ensures Reduce(s, AddSubcategory(category, subcategory)).subcategories[category] ==
      SubcategoriesOf(s.subcategories, category) + [subcategory]
    ensures forall c :: c != category ==>
      SubcategoriesOf(Reduce(s, AddSubcategory(category, subcategory)).subcategories, c) ==
        SubcategoriesOf(s.subcategories, c)
    ensures Reduce(s, AddSubcategory(category, subcategory)).categories == s.categories
    ensures Reduce(s, AddSubcategory(category, subcategory)).items == s.items
    ensures Consistent(s) ==> Consistent(Reduce(s, AddSubcategory(category, subcategory)))
  {
  }

  /** The store a session shares between its pages and the chat: it holds
      the current state and changes only by dispatching an action. */
  class Store {
    var state: BudgetState

    constructor ()
      ensures state == InitialState()
    {
      state := InitialState();
    }

    method Dispatch(action: Action)
      modifies this
      ensures state == Reduce(old(state), action)
      ensures Consistent(old(state)) ==> Consistent(state)
    {
      if Consistent(state) {
        ReducePreservesConsistent(state, action);
      }
      state := Reduce(state, action);
    }
  }
}

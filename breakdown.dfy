/** The per-category aggregation that the reports page, the dashboard and
    the chat analysis each compute from the ledger: for every taxonomy
    category in taxonomy order, the summed amount and actual of the items
    filed under it, keeping only categories whose summed amount is
    positive. */
module Breakdown {
  import opened Util
  import opened Ledger

  datatype CategoryRow = CategoryRow(category: string, budget: int, actual: int, variance: int)

  /** The size of an item's variance, whichever way it goes. */
  function Magnitude(item: BudgetItem): nat
  {
    if item.variance < 0 then -item.variance else item.variance
  }

  /** The item is off its budget: its variance is non-zero. */
  function HasVariance(): BudgetItem -> bool
  {
    (x: BudgetItem) => Magnitude(x) > 0
  }

  function InCategory(category: string): BudgetItem -> bool
  {
    (x: BudgetItem) => x.category == category
  }

  /** The items filed under `category`, in ledger order. */
  function ItemsIn(items: seq<BudgetItem>, category: string): seq<BudgetItem>
  {
    Filter(items, InCategory(category))
  }

  function CategorySum(items: seq<BudgetItem>, category: string, column: Column): int
  {
    Total(ItemsIn(items, category), column)
  }

  function RowFor(items: seq<BudgetItem>, category: string): CategoryRow
  {
    var budget := CategorySum(items, category, Amount);
    var actual := CategorySum(items, category, Actual);
    CategoryRow(category, budget, actual, actual - budget)
  }

  /** One row per taxonomy category, in taxonomy order, keeping only the
      rows with a positive summed amount. */
  function Rows(items: seq<BudgetItem>, categories: seq<string>): seq<CategoryRow>
  {
    if categories == [] then []
    else (if RowFor(items, categories[0]).budget > 0 then [RowFor(items, categories[0])] else [])
         + Rows(items, categories[1..])
  }

  /** Every row is the aggregate of a taxonomy category with positive
      summed amount, and every such category has its row. */
  lemma {:induction false} RowsExactly(items: seq<BudgetItem>, categories: seq<string>)
    ensures forall r :: r in Rows(items, categories) ==>
      r.category in categories && r == RowFor(items, r.category) && r.budget > 0
    ensures forall c :: c in categories && CategorySum(items, c, Amount) > 0 ==>
      RowFor(items, c) in Rows(items, categories)
  {
    if categories != [] {
      RowsExactly(items, categories[1..]);
    }
  }

  /** Rows follow taxonomy order: the rows of a concatenated taxonomy are
      the rows of its first part followed by those of the second. */
  lemma {:induction false} RowsFollowTaxonomyOrder(items: seq<BudgetItem>, a: seq<string>, b: seq<string>)
    ensures Rows(items, a + b) == Rows(items, a) + Rows(items, b)
  {
    if a == [] {
      assert a + b == b;
    } else {
      assert (a + b)[1..] == a[1..] + b;
      RowsFollowTaxonomyOrder(items, a[1..], b);
    }
  }

  /** A row's variance is its actual minus its budget, and the row's figures
      change only with the items of its own category. */
  lemma RowIgnoresOtherCategories(items: seq<BudgetItem>, item: BudgetItem, category: string)
    requires item.category != category
    ensures RowFor(items + [item], category) == RowFor(items, category)
    ensures RowFor(items, category).variance == RowFor(items, category).actual - RowFor(items, category).budget
  {
    var p := InCategory(category);
    FilterConcat(items, [item], p);
    assert Filter([item], p) == [];
    assert ItemsIn(items + [item], category) == ItemsIn(items, category);
  }

  // ---------------------------------------------------------------------
  // The categories partition the totals

  /** The sum over a list of categories of their per-category totals. */
  function SumOverCategories(items: seq<BudgetItem>, categories: seq<string>, column: Column): int
  {
    if categories == [] then 0
    else CategorySum(items, categories[0], column) + SumOverCategories(items, categories[1..], column)
  }

  function SumBudgets(rows: seq<CategoryRow>): int
  {
    if rows == [] then 0 else rows[0].budget + SumBudgets(rows[1..])
  }

  predicate FiledUnder(items: seq<BudgetItem>, categories: seq<string>)
  {
    forall i :: 0 <= i < |items| ==> items[i].category in categories
  }

  lemma {:induction false} SumOverNoItems(categories: seq<string>, column: Column)
    ensures SumOverCategories([], categories, column) == 0
  {
    if categories != [] {
      SumOverNoItems(categories[1..], column);
    }
  }

  /** Putting one item in front adds its value to the sum over the
      categories exactly once when its category is listed (once). */
  lemma {:induction false} SumOverConsItem(x: BudgetItem, rest: seq<BudgetItem>, categories: seq<string>, column: Column)
    requires NoDuplicates(categories)
    ensures SumOverCategories([x] + rest, categories, column) ==
      SumOverCategories(rest, categories, column) + (if x.category in categories then Field(x, column) else 0)
  {
    if categories != [] {
      var c := categories[0];
      assert NoDuplicates(categories[1..]) by {
        forall i, j | 0 <= i < j < |categories[1..]|
          ensures categories[1..][i] != categories[1..][j]
        {
          assert categories[1..][i] == categories[i + 1] && categories[1..][j] == categories[j + 1];
        }
      }
      SumOverConsItem(x, rest, categories[1..], column);
      var p := InCategory(c);
      assert ([x] + rest)[1..] == rest;
      var kept := Filter(rest, p);
      assert ItemsIn([x] + rest, c) == (if p(x) then [x] else []) + kept;
      assert p(x) <==> x.category == c;
      if p(x) {
        assert ([x] + kept)[1..] == kept;
        assert Total([x] + kept, column) == Field(x, column) + Total(kept, column);
      } else {
        assert [] + kept == kept;
      }
      assert CategorySum(rest, c, column) == Total(kept, column);
      assert CategorySum([x] + rest, c, column) ==
        (if x.category == c then Field(x, column) else 0) + CategorySum(rest, c, column);
      if x.category == c {
        assert x.category !in categories[1..] by {
          forall j | 0 <= j < |categories[1..]|
            ensures categories[1..][j] != c
          {
            assert categories[1..][j] == categories[j + 1];
          }
        }
      }
    }
  }

  /** With every item filed under a listed category and no category listed
      twice, the per-category totals add up to the ledger's total. */
  lemma {:induction false} CategoriesPartitionTotal(items: seq<BudgetItem>, categories: seq<string>, column: Column)
    requires NoDuplicates(categories) && FiledUnder(items, categories)
    ensures SumOverCategories(items, categories, column) == Total(items, column)
  {
    if items == [] {
      SumOverNoItems(categories, column);
    } else {
      CategoriesPartitionTotal(items[1..], categories, column);
      SumOverConsItem(items[0], items[1..], categories, column);
      assert [items[0]] + items[1..] == items;
    }
  }

  lemma {:induction false} TotalNonNegative(items: seq<BudgetItem>)
    requires forall i :: 0 <= i < |items| ==> items[i].amount >= 0
    ensures Total(items, Amount) >= 0
  {
    if items != [] {
      TotalNonNegative(items[1..]);
    }
  }

  /** With non-negative amounts, dropping the rows whose budget is not
      positive drops only zeros: the rows' budgets add up to the sum over
      all categories. */
  lemma {:induction false} RowsKeepSum(items: seq<BudgetItem>, categories: seq<string>)
    requires forall i :: 0 <= i < |items| ==> items[i].amount >= 0
    ensures SumBudgets(Rows(items, categories)) == SumOverCategories(items, categories, Amount)
  {
    if categories != [] {
      var c := categories[0];
      RowsKeepSum(items, categories[1..]);
      var p := InCategory(c);
      forall i | 0 <= i < |ItemsIn(items, c)|
        ensures ItemsIn(items, c)[i].amount >= 0
      {
        var x := ItemsIn(items, c)[i];
        FilterMembership(items, p, x);
      }
      TotalNonNegative(ItemsIn(items, c));
      var row := RowFor(items, c);
      var rest := Rows(items, categories[1..]);
      if row.budget > 0 {
        assert ([row] + rest)[1..] == rest;
      } else {
        assert row.budget == 0;
        assert [] + rest == rest;
      }
    }
  }

  /** On a consistent ledger whose items are all filed under distinct
      taxonomy categories with non-negative amounts, the breakdown rows'
      budgets add up to the total budget (their percentages to 100). */
  lemma BreakdownCoversTotalBudget(s: BudgetState)
    requires Consistent(s) && NoDuplicates(s.categories) && FiledUnder(s.items, s.categories)
    requires forall i :: 0 <= i < |s.items| ==> s.items[i].amount >= 0
    ensures SumBudgets(Rows(s.items, s.categories)) == s.totalBudget
  {
    RowsKeepSum(s.items, s.categories);
    CategoriesPartitionTotal(s.items, s.categories, Amount);
  }
}

/** The dashboard's derived views: the budget-by-category chart, the
    variance chart, the recent-items table and the summary cards. */
module Dashboard {
  import opened Util
  import opened Ledger
  import opened Breakdown

  /** One slice of the budget-by-category chart. */
  datatype Slice = Slice(name: string, value: int)

  function SliceFor(items: seq<BudgetItem>, category: string): Slice
  {
    Slice(category, CategorySum(items, category, Amount))
  }

  function MapSlices(items: seq<BudgetItem>, categories: seq<string>): (slices: seq<Slice>)
    ensures |slices| == |categories|
    ensures forall i :: 0 <= i < |categories| ==> slices[i] == SliceFor(items, categories[i])
  {
    var slices := seq(|categories|, i requires 0 <= i < |categories| => SliceFor(items, categories[i]));
    assert forall i :: 0 <= i < |categories| ==> slices[i] == SliceFor(items, categories[i]);
    slices
  }

  function PositiveSlice(): Slice -> bool
  {
    (x: Slice) => x.value > 0
  }

  /** `categoryData`: each taxonomy category with its summed amount, keeping
      the positive ones. */
  function CategoryData(s: BudgetState): seq<Slice>
  {
    Filter(MapSlices(s.items, s.categories), PositiveSlice())
  }

  /** The chart shows, in taxonomy order, exactly the categories of the
      shared breakdown rows, each valued at the row's budget. */
  lemma {:induction false} CategoryDataAgreesWithRows(items: seq<BudgetItem>, categories: seq<string>)
    ensures |Filter(MapSlices(items, categories), PositiveSlice())| == |Rows(items, categories)|
    ensures forall i :: 0 <= i < |Rows(items, categories)| ==>
      Filter(MapSlices(items, categories), PositiveSlice())[i] ==
        Slice(Rows(items, categories)[i].category, Rows(items, categories)[i].budget)
  {
    if categories != [] {
      var c := categories[0];
      assert MapSlices(items, categories) == [SliceFor(items, c)] + MapSlices(items, categories[1..]);
      FilterConcat([SliceFor(items, c)], MapSlices(items, categories[1..]), PositiveSlice());
      CategoryDataAgreesWithRows(items, categories[1..]);
      assert Filter([SliceFor(items, c)], PositiveSlice()) ==
        if SliceFor(items, c).value > 0 then [SliceFor(items, c)] else [];
    }
  }

  /** One bar of the variance chart: the item's figures, copied unchanged. */
  datatype VarianceBar = VarianceBar(name: string, budget: int, actual: int, variance: int)

  function BarOf(item: BudgetItem): VarianceBar
  {
    VarianceBar(item.description, item.amount, item.actual, item.variance)
  }

  /** `varianceData`: the first ten off-budget items in ledger order. */
  function VarianceData(items: seq<BudgetItem>): (bars: seq<VarianceBar>)
    ensures |bars| == |Take(Filter(items, HasVariance()), 10)|
    ensures forall i :: 0 <= i < |bars| ==> bars[i] == BarOf(Filter(items, HasVariance())[i])
  {
    var first := Take(Filter(items, HasVariance()), 10);
    var bars := seq(|first|, i requires 0 <= i < |first| => BarOf(first[i]));
    assert forall i :: 0 <= i < |first| ==> bars[i] == BarOf(first[i]);
    bars
  }

  /** The chart has at most ten bars, every bar copies an off-budget
      ledger item unchanged, and all off-budget items appear when there are
      at most ten. */
  lemma VarianceDataSpec(items: seq<BudgetItem>)
    ensures |VarianceData(items)| <= 10
    ensures forall i :: 0 <= i < |VarianceData(items)| ==>
      var x := Filter(items, HasVariance())[i];
      x in items && Magnitude(x) > 0 && VarianceData(items)[i] == BarOf(x)
    ensures |Filter(items, HasVariance())| <= 10 ==> |VarianceData(items)| == |Filter(items, HasVariance())|
  {
    var off := Filter(items, HasVariance());
    forall i | 0 <= i < |VarianceData(items)|
      ensures off[i] in items && Magnitude(off[i]) > 0
    {
      var x := off[i];
      assert x in off;
      FilterMembership(items, HasVariance(), x);
      assert x in items && HasVariance()(x);
    }
  }

  /** Unlike the reports page the chart is not ranked: appending an item to
      a ledger that already has ten off-budget items leaves the chart as it
      was, however large the new item's variance. */
  lemma VarianceDataIsFirstTen(items: seq<BudgetItem>, later: BudgetItem)
    requires |Filter(items, HasVariance())| >= 10
    ensures VarianceData(items + [later]) == VarianceData(items)
  {
    var off := Filter(items, HasVariance());
    FilterConcat(items, [later], HasVariance());
    var off2 := Filter(items + [later], HasVariance());
    assert off2 == off + Filter([later], HasVariance());
    assert Take(off2, 10) == Take(off, 10);
  }

  /** The recent-items table: the first five items, in ledger order. */
  function RecentItems(items: seq<BudgetItem>): (recent: seq<BudgetItem>)
    ensures |recent| == if |items| < 5 then |items| else 5
    ensures recent == items[..|recent|]
  {
    Take(items, 5)
  }

  /** The four summary cards: total budget, total spent, the variance's
      magnitude (red when the variance is not negative) and the item count. */
  datatype Cards = Cards(totalBudget: int, totalSpent: int, varianceMagnitude: nat, varianceRed: bool, itemCount: nat)

  function SummaryCards(s: BudgetState): (c: Cards)
    ensures c.varianceMagnitude == if s.totalVariance < 0 then -s.totalVariance else s.totalVariance
    ensures c.varianceRed <==> s.totalVariance >= 0
    ensures c.itemCount == |s.items|
  {
    Cards(s.totalBudget, s.totalActual,
          if s.totalVariance < 0 then -s.totalVariance else s.totalVariance,
          s.totalVariance >= 0, |s.items|)
  }

  /** After ADD_ITEM the item card counts one more, and on a consistent
      ledger the cards show the sums of the ledger's columns. */
  lemma SummaryCardsTrackLedger(s: BudgetState, item: BudgetItem)
    requires Consistent(s)
    ensures SummaryCards(Reduce(s, AddItem(item))).itemCount == SummaryCards(s).itemCount + 1
    ensures SummaryCards(s).totalBudget == Total(s.items, Amount)
    ensures SummaryCards(s).totalSpent == Total(s.items, Actual)
  {
  }
}

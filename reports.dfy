/** The reports page's derived views: the category breakdown with each
    category's share of the total budget, the ten largest variances, the
    list of over-budget categories and which notices are shown. */
module Reports {
  import opened Util
  import opened Ledger
  import opened Breakdown

  // ---------------------------------------------------------------------
  // Category breakdown

  datatype BreakdownRow = BreakdownRow(category: string, budget: int, actual: int, variance: int, percentage: real)

  /** A category's share of the total budget, in percent; 0 when the total
      is not positive. */
  function Percentage(budget: int, totalBudget: int): (p: real)
    ensures totalBudget <= 0 ==> p == 0.0
    ensures totalBudget > 0 ==> p * totalBudget as real == budget as real * 100.0
  {
    if totalBudget > 0 then (budget as real / totalBudget as real) * 100.0 else 0.0
  }

  /** The breakdown row of one category, before rows are filtered. */
  function ReportRow(s: BudgetState, category: string): BreakdownRow
  {
    var items := ItemsIn(s.items, category);
    var budget := Total(items, Amount);
    var actual := Total(items, Actual);
    BreakdownRow(category, budget, actual, actual - budget, Percentage(budget, s.totalBudget))
  }

  function Budgeted(): BreakdownRow -> bool
  {
    (r: BreakdownRow) => r.budget > 0
  }

  function MapRows(s: BudgetState, categories: seq<string>): (rows: seq<BreakdownRow>)
    ensures |rows| == |categories|
    ensures forall i :: 0 <= i < |categories| ==> rows[i] == ReportRow(s, categories[i])
  {
    var rows := seq(|categories|, i requires 0 <= i < |categories| => ReportRow(s, categories[i]));
    assert forall i :: 0 <= i < |categories| ==> rows[i] == ReportRow(s, categories[i]);
    rows
  }

  /** `categoryBreakdown`: map every taxonomy category to its row, then keep
      the rows with a positive budget. */
  function CategoryBreakdown(s: BudgetState): seq<BreakdownRow>
  {
    Filter(MapRows(s, s.categories), Budgeted())
  }

  /** A row is in the breakdown exactly when it is the row of a taxonomy
      category whose summed amount is positive. */
  lemma BreakdownMembership(s: BudgetState, r: BreakdownRow)
    ensures r in CategoryBreakdown(s) <==>
      r.category in s.categories && r == ReportRow(s, r.category) && r.budget > 0
  {
    var mapped := MapRows(s, s.categories);
    FilterMembership(mapped, Budgeted(), r);
    if r in mapped {
      var i :| 0 <= i < |mapped| && mapped[i] == r;
      assert r.category == s.categories[i];
    }
    if r.category in s.categories && r == ReportRow(s, r.category) {
      var i :| 0 <= i < |s.categories| && s.categories[i] == r.category;
      assert mapped[i] == r;
    }
  }

  lemma {:induction false} MapRowsCons(s: BudgetState, categories: seq<string>)
    requires categories != []
    ensures MapRows(s, categories) == [ReportRow(s, categories[0])] + MapRows(s, categories[1..])
  {
  }

  /** The reports page and the shared aggregation agree: the breakdown is,
      row for row, the shared rows with a percentage attached. */
  lemma {:induction false} BreakdownAgreesWithRows(s: BudgetState, categories: seq<string>)
    ensures |Filter(MapRows(s, categories), Budgeted())| == |Rows(s.items, categories)|
    ensures forall i :: 0 <= i < |Rows(s.items, categories)| ==>
      var r := Filter(MapRows(s, categories), Budgeted())[i];
      var row := Rows(s.items, categories)[i];
      r.category == row.category && r.budget == row.budget && r.actual == row.actual
      && r.variance == row.variance && r.percentage == Percentage(row.budget, s.totalBudget)
  {
    if categories != [] {
      var c := categories[0];
      MapRowsCons(s, categories);
      FilterConcat([ReportRow(s, c)], MapRows(s, categories[1..]), Budgeted());
      BreakdownAgreesWithRows(s, categories[1..]);
      assert Filter([ReportRow(s, c)], Budgeted()) == if ReportRow(s, c).budget > 0 then [ReportRow(s, c)] else [];
    }
  }

  function SumPercentages(rows: seq<BreakdownRow>): real
  {
    if rows == [] then 0.0 else rows[0].percentage + SumPercentages(rows[1..])
  }

  lemma {:induction false} SumPercentagesScaled(rows: seq<BreakdownRow>, categoryRows: seq<CategoryRow>, totalBudget: int)
    requires totalBudget > 0 && |rows| == |categoryRows|
    requires forall i :: 0 <= i < |rows| ==> rows[i].percentage == Percentage(categoryRows[i].budget, totalBudget)
    ensures SumPercentages(rows) * totalBudget as real == SumBudgets(categoryRows) as real * 100.0
  {
    if rows != [] {
      SumPercentagesScaled(rows[1..], categoryRows[1..], totalBudget);
      var t := totalBudget as real;
      assert rows[0].percentage * t == categoryRows[0].budget as real * 100.0;
      assert SumPercentages(rows) * t == rows[0].percentage * t + SumPercentages(rows[1..]) * t;
    }
  }

  /** On a consistent ledger with a positive total, whose items are filed
      under distinct taxonomy categories with non-negative amounts, the
      breakdown's percentages add up to 100. */
  lemma PercentagesAddUp(s: BudgetState)
    requires Consistent(s) && NoDuplicates(s.categories) && FiledUnder(s.items, s.categories)
    requires forall i :: 0 <= i < |s.items| ==> s.items[i].amount >= 0
    requires s.totalBudget > 0
    ensures SumPercentages(CategoryBreakdown(s)) == 100.0
  {
    BreakdownAgreesWithRows(s, s.categories);
    BreakdownCoversTotalBudget(s);
    SumPercentagesScaled(CategoryBreakdown(s), Rows(s.items, s.categories), s.totalBudget);
  }

  // ---------------------------------------------------------------------
  // Top variances

  /** Descending by magnitude. */
  predicate Ranked(s: seq<BudgetItem>)
  {
    forall i, j :: 0 <= i < j < |s| ==> Magnitude(s[i]) >= Magnitude(s[j])
  }

  /** Places `x` before the first element no larger than it; an `x` taken
      from earlier in the input thus stays ahead of its equals. */
  function InsertByMagnitude(x: BudgetItem, ranked: seq<BudgetItem>): seq<BudgetItem>
  {
    if ranked == [] || Magnitude(ranked[0]) <= Magnitude(x) then [x] + ranked
    else [ranked[0]] + InsertByMagnitude(x, ranked[1..])
  }

  /** The variance table's ordering: a stable sort by the size of the
      variance, largest first. */
  function SortByMagnitude(s: seq<BudgetItem>): seq<BudgetItem>
  {
    if s == [] then [] else InsertByMagnitude(s[0], SortByMagnitude(s[1..]))
  }

  lemma {:induction false} InsertByMagnitudeCount(x: BudgetItem, ranked: seq<BudgetItem>)
    ensures multiset(InsertByMagnitude(x, ranked)) == multiset(ranked) + multiset{x}
  {
    if ranked != [] && Magnitude(ranked[0]) > Magnitude(x) {
      InsertByMagnitudeCount(x, ranked[1..]);
      assert ranked == [ranked[0]] + ranked[1..];
    }
  }

  /** No element is larger than `m`. */
  predicate AtMost(s: seq<BudgetItem>, m: nat)
  {
    forall k :: 0 <= k < |s| ==> Magnitude(s[k]) <= m
  }

  lemma RankedCons(h: BudgetItem, rest: seq<BudgetItem>)
    requires Ranked(rest) && AtMost(rest, Magnitude(h))
    ensures Ranked([h] + rest)
  {
    var r := [h] + rest;
    forall i, j | 0 <= i < j < |r|
      ensures Magnitude(r[i]) >= Magnitude(r[j])
    {
      assert r[j] == rest[j - 1];
      if i > 0 {
        assert r[i] == rest[i - 1];
      }
    }
  }

  lemma {:induction false} InsertByMagnitudeAtMost(x: BudgetItem, ranked: seq<BudgetItem>, m: nat)
    requires AtMost(ranked, m) && Magnitude(x) <= m
    ensures AtMost(InsertByMagnitude(x, ranked), m)
  {
    if ranked != [] && Magnitude(ranked[0]) > Magnitude(x) {
      var tail := ranked[1..];
      assert AtMost(tail, m) by {
        forall k | 0 <= k < |tail|
          ensures Magnitude(tail[k]) <= m
        {
          assert tail[k] == ranked[k + 1];
        }
      }
      InsertByMagnitudeAtMost(x, tail, m);
      var r := [ranked[0]] + InsertByMagnitude(x, tail);
      forall k | 0 <= k < |r|
        ensures Magnitude(r[k]) <= m
      {
        if k > 0 {
          assert r[k] == InsertByMagnitude(x, tail)[k - 1];
        }
      }
    } else {
      var r := [x] + ranked;
      forall k | 0 <= k < |r|
        ensures Magnitude(r[k]) <= m
      {
        if k > 0 {
          assert r[k] == ranked[k - 1];
        }
      }
    }
  }

  lemma {:induction false} InsertByMagnitudeRanked(x: BudgetItem, ranked: seq<BudgetItem>)
    requires Ranked(ranked)
    ensures Ranked(InsertByMagnitude(x, ranked))
  {
    if ranked == [] {
      assert InsertByMagnitude(x, ranked) == [x];
    } else if Magnitude(ranked[0]) <= Magnitude(x) {
      assert AtMost(ranked, Magnitude(x)) by {
        forall k | 0 <= k < |ranked|
          ensures Magnitude(ranked[k]) <= Magnitude(x)
        {
          if k > 0 {
            assert Magnitude(ranked[0]) >= Magnitude(ranked[k]);
          }
        }
      }
      RankedCons(x, ranked);
    } else {
      var tail := ranked[1..];
      assert Ranked(tail) by {
        forall i, j | 0 <= i < j < |tail|
          ensures Magnitude(tail[i]) >= Magnitude(tail[j])
        {
          assert tail[i] == ranked[i + 1] && tail[j] == ranked[j + 1];
        }
      }
      assert AtMost(tail, Magnitude(ranked[0])) by {
        forall k | 0 <= k < |tail|
          ensures Magnitude(tail[k]) <= Magnitude(ranked[0])
        {
          assert tail[k] == ranked[k + 1];
        }
      }
      InsertByMagnitudeRanked(x, tail);
      InsertByMagnitudeAtMost(x, tail, Magnitude(ranked[0]));
      RankedCons(ranked[0], InsertByMagnitude(x, tail));
    }
  }

  /** The sort orders by magnitude and only reorders. */
  lemma {:induction false} SortByMagnitudeRanked(s: seq<BudgetItem>)
    ensures Ranked(SortByMagnitude(s))
    ensures multiset(SortByMagnitude(s)) == multiset(s)
  {
    if s != [] {
      SortByMagnitudeRanked(s[1..]);
      InsertByMagnitudeRanked(s[0], SortByMagnitude(s[1..]));
      InsertByMagnitudeCount(s[0], SortByMagnitude(s[1..]));
      assert s == [s[0]] + s[1..];
    }
  }

  /** One entry of the top-variance table. */
  datatype VarianceRow = VarianceRow(name: string, variance: nat, isOver: bool)

  function VarianceRowOf(item: BudgetItem): VarianceRow
  {
    VarianceRow(item.description, Magnitude(item), item.variance > 0)
  }

  /** The off-budget items, largest variance first. */
  function RankedVariances(items: seq<BudgetItem>): seq<BudgetItem>
  {
    SortByMagnitude(Filter(items, HasVariance()))
  }

  /** `topVariances`: the ten largest ranked variances as table rows. */
  function TopVariances(items: seq<BudgetItem>): (rows: seq<VarianceRow>)
    ensures |rows| == |Take(RankedVariances(items), 10)|
    ensures forall i :: 0 <= i < |rows| ==> rows[i] == VarianceRowOf(RankedVariances(items)[i])
  {
    var top := Take(RankedVariances(items), 10);
    var rows := seq(|top|, i requires 0 <= i < |top| => VarianceRowOf(top[i]));
    assert forall i :: 0 <= i < |top| ==> rows[i] == VarianceRowOf(top[i]);
    rows
  }

  /** The table has at most ten rows, each with a positive variance,
      largest first; `isOver` holds exactly for items that overspent. The
      ranking is the off-budget items reordered, and everything cut off is
      no larger than anything shown. */
  lemma TopVariancesSpec(items: seq<BudgetItem>)
    ensures |TopVariances(items)| <= 10
    ensures forall i :: 0 <= i < |TopVariances(items)| ==> TopVariances(items)[i].variance > 0
    ensures forall i, j :: 0 <= i < j < |TopVariances(items)| ==>
      TopVariances(items)[i].variance >= TopVariances(items)[j].variance
    ensures forall i :: 0 <= i < |TopVariances(items)| ==>
      (TopVariances(items)[i].isOver <==> RankedVariances(items)[i].variance > 0)
    ensures multiset(RankedVariances(items)) == multiset(Filter(items, HasVariance()))
    ensures forall i, j :: 0 <= i < |TopVariances(items)| <= j < |RankedVariances(items)| ==>
      TopVariances(items)[i].variance >= Magnitude(RankedVariances(items)[j])
  {
    var kept := Filter(items, HasVariance());
    var ranked := RankedVariances(items);
    SortByMagnitudeRanked(kept);
    var rows := TopVariances(items);
    forall i | 0 <= i < |rows|
      ensures rows[i].variance > 0
    {
      assert ranked[i] in multiset(kept);
      assert HasVariance()(ranked[i]);
    }
  }

  // ---------------------------------------------------------------------
  // Over-budget categories and notices

  function Overspent(): BreakdownRow -> bool
  {
    (r: BreakdownRow) => r.variance > 0
  }

  /** The breakdown rows whose variance is positive, in breakdown order. */
  function OverBudgetCategories(s: BudgetState): seq<BreakdownRow>
  {
    Filter(CategoryBreakdown(s), Overspent())
  }

  /** A category is listed as over budget exactly when it is in the
      taxonomy, its summed amount is positive and its summed actual is
      larger. */
  lemma OverBudgetExactly(s: BudgetState, category: string)
    ensures (exists r :: r in OverBudgetCategories(s) && r.category == category) <==>
      category in s.categories && CategorySum(s.items, category, Amount) > 0
      && CategorySum(s.items, category, Actual) > CategorySum(s.items, category, Amount)
  {
    var row := ReportRow(s, category);
    if exists r :: r in OverBudgetCategories(s) && r.category == category {
      var r :| r in OverBudgetCategories(s) && r.category == category;
      FilterMembership(CategoryBreakdown(s), Overspent(), r);
      BreakdownMembership(s, r);
    }
    if category in s.categories && CategorySum(s.items, category, Amount) > 0
       && CategorySum(s.items, category, Actual) > CategorySum(s.items, category, Amount) {
      BreakdownMembership(s, row);
      FilterMembership(CategoryBreakdown(s), Overspent(), row);
      assert row in OverBudgetCategories(s);
    }
  }

  /** Which recommendation blocks the page shows. */
  datatype Notices = Notices(overrun: bool, underBudget: bool, categoryAlert: bool)

  /** The overrun notice for a positive total variance, the under-budget
      notice for a negative one (so neither at zero), and the category alert
      when some category is over budget. */
  function ShownNotices(s: BudgetState): (n: Notices)
    ensures n.overrun <==> s.totalVariance > 0
    ensures n.underBudget <==> s.totalVariance < 0
    ensures !(n.overrun && n.underBudget)
    ensures s.totalVariance == 0 ==> !n.overrun && !n.underBudget
    ensures n.categoryAlert <==> |OverBudgetCategories(s)| > 0
  {
    Notices(s.totalVariance > 0, s.totalVariance < 0, |OverBudgetCategories(s)| > 0)
  }
}

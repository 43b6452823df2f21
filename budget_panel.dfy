/** The budget panel: the month on display, the per-category progress
    figures, the overall label, the chart series, and the Top Spending and
    Budget Efficiency lists, which sort the displayed month's categories
    array in place. */
module BudgetPanel {
  import opened Common
  import opened Sorting

  datatype BudgetCategory = BudgetCategory(name: string, spent: int, budget: int, color: string)

  datatype MonthlyBudget = MonthlyBudget(
    month: string,
    totalBudget: int,
    totalSpent: int,
    categories: seq<BudgetCategory>)

  /** `find` on the months. */
  function FindMonth(data: seq<MonthlyBudget>, month: string): (r: Option<int>)
    ensures r.Some? ==> 0 <= r.value < |data| && data[r.value].month == month
                        && forall j :: 0 <= j < r.value ==> data[j].month != month
    ensures r.None? ==> forall j :: 0 <= j < |data| ==> data[j].month != month
  {
    if |data| == 0 then None
    else if data[0].month == month then Some(0)
    else
      var rest := FindMonth(data[1..], month);
      if rest.Some? then Some(rest.value + 1) else None
  }

  /** `currentBudgetData`: the first entry of the selected month, else the
      first entry; there is none when the list is empty. */
  function CurrentBudget(data: seq<MonthlyBudget>, selected: string): (r: Option<MonthlyBudget>)
    ensures r.None? <==> |data| == 0
    ensures r.Some? ==> r.value in data
    ensures (exists j :: 0 <= j < |data| && data[j].month == selected) ==>
              r.Some? && r.value.month == selected
    ensures (forall j :: 0 <= j < |data| ==> data[j].month != selected) && |data| > 0 ==> r == Some(data[0])
  {
    var found := FindMonth(data, selected);
    if found.Some? then Some(data[found.value])
    else if |data| > 0 then Some(data[0])
    else None
  }

  /** The progress of one category, `min(round(spent / budget * 100), 100)`.
      With a zero budget the quotient is infinite: positive spending shows
      100, and otherwise there is no finite figure (`NaN` or `-Infinity`). */
  function CategoryPercentage(c: BudgetCategory): (r: Option<int>)
    ensures r.Some? ==> r.value <= 100
    ensures c.budget != 0 ==> r.Some?
    ensures c.budget > 0 && c.spent >= c.budget ==> r == Some(100)
    ensures c.budget > 0 && 0 <= c.spent ==> r.Some? && 0 <= r.value
  {
    QuotientBounds(c.spent, c.budget);
    if c.budget != 0 then Some(Min(Round(c.spent as real / c.budget as real * 100.0), 100))
    else if c.spent > 0 then Some(100)
    else None
  }

  lemma QuotientBounds(spent: int, budget: int)
    ensures budget > 0 && spent >= budget ==> spent as real / budget as real >= 1.0
    ensures budget > 0 && spent >= 0 ==> spent as real / budget as real >= 0.0
  {
    if budget > 0 {
      var q := spent as real / budget as real;
      assert q * budget as real == spent as real;
    }
  }

  function Remaining(c: BudgetCategory): int
  {
    c.budget - c.spent
  }

  predicate IsOverBudget(c: BudgetCategory)
  {
    Remaining(c) < 0
  }

  /** Over budget exactly when more was spent than budgeted; a category
      over a positive budget shows a full bar. */
  lemma OverBudgetMeansOverspent(c: BudgetCategory)
    ensures IsOverBudget(c) <==> c.spent > c.budget
    ensures IsOverBudget(c) && c.budget > 0 ==> CategoryPercentage(c) == Some(100)
  {
  }

  /** The overall line under the bar: its label and the amount shown. */
  function OverallLabel(m: MonthlyBudget): (r: (string, nat))
    ensures r.0 == "Over budget by" <==> m.totalSpent > m.totalBudget
    ensures r.0 == "Over budget by" || r.0 == "Remaining"
  {
    (if m.totalSpent > m.totalBudget then "Over budget by" else "Remaining", Abs(m.totalBudget - m.totalSpent))
  }

  /** The amount is what is left when under budget, and the overspend when over. */
  lemma OverallAmount(m: MonthlyBudget)
    ensures OverallLabel(m).0 == "Remaining" ==> OverallLabel(m).1 == m.totalBudget - m.totalSpent
    ensures OverallLabel(m).0 == "Over budget by" ==> OverallLabel(m).1 == m.totalSpent - m.totalBudget
  {
  }

  datatype TrendPoint = TrendPoint(month: string, budget: int, spent: int)

  /** `trendData`: one point per month, in reverse order of the list. */
  function TrendData(data: seq<MonthlyBudget>): (r: seq<TrendPoint>)
    ensures |r| == |data|
    ensures forall i :: 0 <= i < |data| ==>
      var m := data[|data| - 1 - i]; r[i] == TrendPoint(m.month, m.totalBudget, m.totalSpent)
  {
    if |data| == 0 then []
    else
      var last := data[|data| - 1];
      [TrendPoint(last.month, last.totalBudget, last.totalSpent)] + TrendData(data[..|data| - 1])
  }

  datatype Slice = Slice(name: string, value: int, color: string)

  datatype Comparison = Comparison(name: string, budget: int, spent: int)

  /** The pie series: one slice per category in category order. */
  function PieChartData(cs: seq<BudgetCategory>): (r: seq<Slice>)
    ensures |r| == |cs|
    ensures forall i :: 0 <= i < |cs| ==> r[i] == Slice(cs[i].name, cs[i].spent, cs[i].color)
  {
    seq(|cs|, i requires 0 <= i < |cs| => Slice(cs[i].name, cs[i].spent, cs[i].color))
  }

  function ComparisonData(cs: seq<BudgetCategory>): (r: seq<Comparison>)
    ensures |r| == |cs|
    ensures forall i :: 0 <= i < |cs| ==> r[i] == Comparison(cs[i].name, cs[i].budget, cs[i].spent)
  {
    seq(|cs|, i requires 0 <= i < |cs| => Comparison(cs[i].name, cs[i].budget, cs[i].spent))
  }

  /** The Top Spending comparator `b.spent - a.spent`. */
  predicate MoreSpent(a: BudgetCategory, b: BudgetCategory)
  {
    a.spent >= b.spent
  }

  lemma MoreSpentOrders()
    ensures TotalPreorder(MoreSpent)
  {
  }

  /** `spent / budget` with the infinities a zero budget gives. */
  datatype Usage = Below | Ratio(value: real) | Above

  function UsageOf(c: BudgetCategory): Usage
  {
    if c.budget != 0 then Ratio(c.spent as real / c.budget as real)
    else if c.spent > 0 then Above
    else Below
  }

  predicate UsageLe(u: Usage, v: Usage)
  {
    u.Below? || v.Above? || (u.Ratio? && v.Ratio? && u.value <= v.value)
  }

  /** The Budget Efficiency comparator `a.spent / a.budget - b.spent / b.budget`. */
  predicate LessUsed(a: BudgetCategory, b: BudgetCategory)
  {
    UsageLe(UsageOf(a), UsageOf(b))
  }

  lemma LessUsedOrders()
    ensures TotalPreorder(LessUsed)
  {
  }

  /** The analysis tab: Top Spending sorts the categories by spending and
      shows the first five; Budget Efficiency then sorts the same array by
      usage and shows its first five. The array keeps the second order. */
  method AnalysisLists(categories: array<BudgetCategory>) returns (top: seq<BudgetCategory>,
                                                                   efficient: seq<BudgetCategory>)
    requires forall k :: 0 <= k < categories.Length ==> categories[k].budget != 0 || categories[k].spent != 0
    modifies categories
    ensures multiset(categories[..]) == multiset(old(categories[..]))
    ensures Sorted(categories[..], LessUsed) && efficient == Take(categories[..], 5)
    ensures exists bySpending: seq<BudgetCategory> ::
      && multiset(bySpending) == multiset(old(categories[..]))
      && Sorted(bySpending, MoreSpent) && top == Take(bySpending, 5)
  {
    MoreSpentOrders();
    SortInPlace(categories, MoreSpent);
    top := Take(categories[..], 5);
    ghost var bySpending := categories[..];
    LessUsedOrders();
    SortInPlace(categories, LessUsed);
    efficient := Take(categories[..], 5);
  }

  /** The five shown by spending are the biggest: nothing left out spent
      more than anything shown. */
  lemma TopAreBiggest(bySpending: seq<BudgetCategory>, i: int, j: int)
    requires Sorted(bySpending, MoreSpent)
    requires 0 <= i < |Take(bySpending, 5)| <= j < |bySpending|
    ensures Take(bySpending, 5)[i].spent >= bySpending[j].spent
  {
  }
}

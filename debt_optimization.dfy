/** The debt optimization widget: the two payoff orders it lists and the
    snowball figures it derives from the avalanche totals. Interest rates
    are percentages; balances and the totals are whole amounts. The totals
    are inputs of the widget, not sums over the debts. */
module DebtOptimization {
  import opened Common
  import opened Sorting

  datatype DebtItem = DebtItem(
    id: string,
    name: string,
    balance: int,
    interestRate: real,
    minimumPayment: int,
    recommendedPayment: int,
    payoffDate: string,
    optimizedPayoffDate: string,
    interestSaved: int,
    timeSaved: int)

  /** The comparator `b.interestRate - a.interestRate`. */
  predicate HigherRateFirst(a: DebtItem, b: DebtItem)
  {
    a.interestRate >= b.interestRate
  }

  /** The comparator `a.balance - b.balance`. */
  predicate SmallerBalanceFirst(a: DebtItem, b: DebtItem)
  {
    a.balance <= b.balance
  }

  lemma HigherRateFirstOrders()
    ensures TotalPreorder(HigherRateFirst)
  {
  }

  lemma SmallerBalanceFirstOrders()
    ensures TotalPreorder(SmallerBalanceFirst)
  {
  }

  /** `avalancheDebts`: a sorted copy, highest rate first. The list it is
      built from is a value and stays as it was. */
  function AvalancheDebts(debts: seq<DebtItem>): (r: seq<DebtItem>)
    ensures multiset(r) == multiset(debts)
    ensures forall i, j :: 0 <= i < j < |r| ==> r[i].interestRate >= r[j].interestRate
  {
    HigherRateFirstOrders();
    SortBySorted(debts, HigherRateFirst);
    SortBy(debts, HigherRateFirst)
  }

  /** `snowballDebts`: a sorted copy, smallest balance first. */
  function SnowballDebts(debts: seq<DebtItem>): (r: seq<DebtItem>)
    ensures multiset(r) == multiset(debts)
    ensures forall i, j :: 0 <= i < j < |r| ==> r[i].balance <= r[j].balance
  {
    SmallerBalanceFirstOrders();
    SortBySorted(debts, SmallerBalanceFirst);
    SortBy(debts, SmallerBalanceFirst)
  }

  /** Both tabs list every debt exactly once, and the first line of each is
      the debt the method pays first. */
  lemma MethodsListEveryDebt(debts: seq<DebtItem>, d: DebtItem)
    ensures multiset(AvalancheDebts(debts))[d] == multiset(debts)[d]
    ensures multiset(SnowballDebts(debts))[d] == multiset(debts)[d]
    ensures d in debts && |debts| > 0 ==> AvalancheDebts(debts)[0].interestRate >= d.interestRate
    ensures d in debts && |debts| > 0 ==> SnowballDebts(debts)[0].balance <= d.balance
  {
    if d in debts {
      var a := AvalancheDebts(debts);
      assert d in multiset(a);
      var i :| 0 <= i < |a| && a[i] == d;
      assert i == 0 || a[0].interestRate >= a[i].interestRate;
      var s := SnowballDebts(debts);
      assert d in multiset(s);
      var j :| 0 <= j < |s| && s[j] == d;
      assert j == 0 || s[0].balance <= s[j].balance;
    }
  }

  /** `Math.round(totalInterestSaved * 0.85)`. */
  function SnowballInterestSaved(totalInterestSaved: int): (r: int)
    ensures totalInterestSaved >= 0 ==> 0 <= r <= totalInterestSaved
    ensures totalInterestSaved >= 4 ==> r < totalInterestSaved
  {
    Round(totalInterestSaved as real * 0.85)
  }

  /** `Math.round(totalTimeSaved * 0.9)`. */
  function SnowballTimeSaved(totalTimeSaved: int): (r: int)
    ensures totalTimeSaved >= 0 ==> 0 <= r <= totalTimeSaved
    ensures totalTimeSaved >= 6 ==> r < totalTimeSaved
  {
    Round(totalTimeSaved as real * 0.9)
  }

  /** With the widget's default totals the snowball column reads 146030 and
      78 months. */
  lemma DefaultSnowballFigures()
    ensures SnowballInterestSaved(171800) == 146030
    ensures SnowballTimeSaved(87) == 78
  {
  }

  const AvalancheText: string := "Paying off highest interest rate debts first"
  const SnowballText: string := "Paying off smallest balance debts first"

  /** The line under each tab, chosen by the method's name. */
  function MethodDescription(methodName: string): (r: string)
    ensures r == AvalancheText <==> methodName == "Avalanche"
    ensures r == AvalancheText || r == SnowballText
  {
    if methodName == "Avalanche" then AvalancheText else SnowballText
  }
}

/** The transactions panel: the filter bar and tabs, the income and
    expense totals of what is shown, the per-day buckets behind the
    calendar view and the choices offered by the category and account
    filters. Dates are `yyyy-MM-dd` strings; the selected calendar day is
    passed already formatted. */
module TransactionPanel {
  import opened Common
  import opened Sorting

  datatype Transaction = Transaction(
    id: string,
    date: string,
    description: string,
    amount: int,
    category: string,
    account: string,
    txType: string,
    status: string)

  datatype ViewMode = List | Calendar

  /** The six filters and the tab, as the filter predicate reads them. */
  datatype Query = Query(
    search: string,
    date: Option<string>,
    category: Option<string>,
    account: Option<string>,
    txType: Option<string>,
    status: Option<string>,
    tab: string)

  /** A case-insensitive substring of the description, category or account. */
  predicate SearchHit(search: string, t: Transaction)
  {
    var q := Lower(search);
    Includes(Lower(t.description), q) || Includes(Lower(t.category), q) || Includes(Lower(t.account), q)
  }

  /** A set filter (a truthy value) must equal the field. */
  predicate FilterAllows(filter: Option<string>, field: string)
  {
    !Truthy(filter) || filter.value == field
  }

  /** The tab's restriction; `all` and any other tab add none. */
  predicate TabAllows(tab: string, t: Transaction)
  {
    && (tab == "income" ==> t.txType == "income")
    && (tab == "expenses" ==> t.txType == "expense")
    && (tab == "transfers" ==> t.txType == "transfer")
    && (tab == "pending" ==> t.status == "pending")
  }

  predicate Matches(q: Query, t: Transaction)
  {
    && (q.search == "" || SearchHit(q.search, t))
    && FilterAllows(q.date, t.date)
    && FilterAllows(q.category, t.category)
    && FilterAllows(q.account, t.account)
    && FilterAllows(q.txType, t.txType)
    && FilterAllows(q.status, t.status)
    && TabAllows(q.tab, t)
  }

  /** `filteredTransactions`. */
  function Filtered(ts: seq<Transaction>, q: Query): seq<Transaction>
  {
    Filter(ts, (t: Transaction) => Matches(q, t))
  }

  /** A transaction is shown exactly when it is in the list and every set
      filter matches it, as many times as it occurs, and in list order. */
  lemma FilteredIsMatchingSubsequence(ts: seq<Transaction>, q: Query, t: Transaction)
    ensures t in Filtered(ts, q) <==> t in ts && Matches(q, t)
    ensures multiset(Filtered(ts, q))[t] == if Matches(q, t) then multiset(ts)[t] else 0
    ensures exists idx: seq<int> ::
      && |idx| == |Filtered(ts, q)|
      && (forall k :: 0 <= k < |idx| ==> 0 <= idx[k] < |ts| && Filtered(ts, q)[k] == ts[idx[k]])
      && (forall k, l :: 0 <= k < l < |idx| ==> idx[k] < idx[l])
  {
    FilterMember(ts, (t: Transaction) => Matches(q, t), t);
    FilterMultiset(ts, (t: Transaction) => Matches(q, t), t);
    var idx := FilterIndices(ts, (t: Transaction) => Matches(q, t));
  }

  /** An empty search matches every transaction. */
  lemma EmptySearchMatchesAll(t: Transaction)
    ensures SearchHit("", t)
  {
    EmptyIncluded(Lower(t.description));
  }

  /** With no filter set and the `all` tab the whole list is shown. */
  lemma NoFiltersShowsAll(ts: seq<Transaction>, tab: string)
    requires tab !in {"income", "expenses", "transfers", "pending"}
    ensures Filtered(ts, Query("", None, None, None, None, None, tab)) == ts
  {
    FilterKeepsAll(ts, (t: Transaction) => Matches(Query("", None, None, None, None, None, tab), t));
  }

  /** The tabs restrict by type or by status. */
  lemma TabsRestrict(ts: seq<Transaction>, q: Query)
    ensures q.tab == "income" ==> forall t :: t in Filtered(ts, q) ==> t.txType == "income"
    ensures q.tab == "expenses" ==> forall t :: t in Filtered(ts, q) ==> t.txType == "expense"
    ensures q.tab == "transfers" ==> forall t :: t in Filtered(ts, q) ==> t.txType == "transfer"
    ensures q.tab == "pending" ==> forall t :: t in Filtered(ts, q) ==> t.status == "pending"
  {
    forall t | t in Filtered(ts, q) ensures Matches(q, t) {
      FilterMember(ts, (t: Transaction) => Matches(q, t), t);
    }
  }

  predicate IsIncome(t: Transaction)
  {
    t.txType == "income"
  }

  predicate IsExpense(t: Transaction)
  {
    t.txType == "expense"
  }

  function SignedAmount(t: Transaction): int
  {
    t.amount
  }

  function Magnitude(t: Transaction): int
  {
    Abs(t.amount)
  }

  /** `totalIncome`: the signed amounts of the income-typed transactions. */
  function TotalIncome(shown: seq<Transaction>): int
  {
    Sum(Filter(shown, IsIncome), SignedAmount)
  }

  /** `totalExpenses`: the magnitudes of the expense-typed transactions. */
  function TotalExpenses(shown: seq<Transaction>): int
  {
    Sum(Filter(shown, IsExpense), Magnitude)
  }

  /** `netCashFlow`. */
  function NetCashFlow(shown: seq<Transaction>): int
  {
    TotalIncome(shown) - TotalExpenses(shown)
  }

  function IncomePart(t: Transaction): int
  {
    if IsIncome(t) then t.amount else 0
  }

  /** What a transaction adds to the expenses, and to its day's spending. */
  function ExpensePart(t: Transaction): int
  {
    if IsExpense(t) then Abs(t.amount) else 0
  }

  /** Each total is a sum over the whole list in which a transaction of the
      other type, or a transfer, counts 0; the expenses are never negative,
      so the net cash flow is at most the income. */
  lemma TotalsByType(shown: seq<Transaction>)
    ensures TotalIncome(shown) == Sum(shown, IncomePart)
    ensures TotalExpenses(shown) == Sum(shown, ExpensePart)
    ensures TotalExpenses(shown) >= 0
    ensures NetCashFlow(shown) <= TotalIncome(shown)
  {
    SumFilter(shown, IsIncome, SignedAmount, IncomePart);
    SumFilter(shown, IsExpense, Magnitude, ExpensePart);
    SumNonNegative(shown, ExpensePart);
  }

  /** A transfer changes neither total, nor the net cash flow. */
  lemma TransferCountsNowhere(shown: seq<Transaction>, t: Transaction)
    requires t.txType == "transfer"
    ensures TotalIncome(shown + [t]) == TotalIncome(shown)
    ensures TotalExpenses(shown + [t]) == TotalExpenses(shown)
    ensures NetCashFlow(shown + [t]) == NetCashFlow(shown)
  {
    TotalsByType(shown);
    TotalsByType(shown + [t]);
    SumAppend(shown, [t], IncomePart);
    SumAppend(shown, [t], ExpensePart);
    assert Sum([t], IncomePart) == Sum([t][..0], IncomePart) + IncomePart(t);
    assert Sum([t], ExpensePart) == Sum([t][..0], ExpensePart) + ExpensePart(t);
  }

  // ---------------------------------------------------------------------
  // The calendar buckets
  // ---------------------------------------------------------------------

  datatype Bucket = Bucket(total: int, transactions: seq<Transaction>)

  /** The transactions of one day, in list order. */
  function OnDay(ts: seq<Transaction>, day: string): seq<Transaction>
  {
    Filter(ts, (t: Transaction) => t.date == day)
  }

  function DatesOf(ts: seq<Transaction>): (r: seq<string>)
    ensures |r| == |ts| && forall k :: 0 <= k < |ts| ==> r[k] == ts[k].date
  {
    seq(|ts|, k requires 0 <= k < |ts| => ts[k].date)
  }

  /** The days in the order their first transaction appears: the key order
      of the record. */
  function Days(ts: seq<Transaction>): seq<string>
  {
    Distinct(DatesOf(ts))
  }

  /** One transaction added to its day's bucket, which is created empty
      when the day is new. */
  function AddToDay(buckets: map<string, Bucket>, t: Transaction): map<string, Bucket>
  {
    var b := if t.date in buckets then buckets[t.date] else Bucket(0, []);
    buckets[t.date := Bucket(b.total + ExpensePart(t), b.transactions + [t])]
  }

  /** The buckets after the reducer has seen every transaction of ts. */
  function BucketsOf(ts: seq<Transaction>): map<string, Bucket>
  {
    if |ts| == 0 then map[] else AddToDay(BucketsOf(ts[..|ts| - 1]), ts[|ts| - 1])
  }

  /** `dailySpending`: one bucket per date, holding that date's transactions
      in order and the spending on them; also the key order. */
  method DailySpending(ts: seq<Transaction>) returns (buckets: map<string, Bucket>, days: seq<string>)
    ensures buckets == BucketsOf(ts) && days == Days(ts)
  {
    buckets, days := map[], [];
    for i := 0 to |ts|
      invariant buckets == BucketsOf(ts[..i])
      invariant days == Days(ts[..i])
    {
      var t := ts[i];
      var day := t.date;
      DailyStep(ts, i);
      var bucket := if day in buckets then buckets[day] else Bucket(0, []);
      if day !in buckets {
        days := days + [day];
      }
      var amount := if t.txType == "expense" then Abs(t.amount) else 0;
      buckets := buckets[day := Bucket(bucket.total + amount, bucket.transactions + [t])];
    }
    assert ts[..|ts|] == ts;
  }

  /** One more transaction: its day's bucket is extended, and the day joins
      the key order when it had no bucket. */
  lemma DailyStep(ts: seq<Transaction>, i: int)
    requires 0 <= i < |ts|
    ensures BucketsOf(ts[..i + 1]) == AddToDay(BucketsOf(ts[..i]), ts[i])
    ensures Days(ts[..i + 1])
            == if ts[i].date in BucketsOf(ts[..i]) then Days(ts[..i]) else Days(ts[..i]) + [ts[i].date]
  {
    DaysStep(ts, i);
    BucketsStep(ts, i);
    BucketsDays(ts[..i], ts[i].date);
  }

  lemma BucketsStep(ts: seq<Transaction>, i: int)
    requires 0 <= i < |ts|
    ensures BucketsOf(ts[..i + 1]) == AddToDay(BucketsOf(ts[..i]), ts[i])
  {
    assert ts[..i + 1][..i] == ts[..i];
  }

  /** A day has a bucket exactly when it is among the days. */
  lemma {:induction false} BucketsDays(ts: seq<Transaction>, day: string)
    ensures day in BucketsOf(ts) <==> day in Days(ts)
  {
    DistinctMembers(DatesOf(ts));
    if |ts| > 0 {
      var init := ts[..|ts| - 1];
      BucketsDays(init, day);
      DistinctMembers(DatesOf(init));
      assert DatesOf(ts) == DatesOf(init) + [ts[|ts| - 1].date];
    }
  }

  /** A day has a bucket exactly when some transaction has that date. */
  lemma BucketsOfDomain(ts: seq<Transaction>, day: string)
    ensures day in BucketsOf(ts) <==> exists k :: 0 <= k < |ts| && ts[k].date == day
  {
    BucketsDays(ts, day);
    DaysAreTheDates(ts);
  }

  /** A day's bucket holds that date's transactions, in order, and their
      spending. */
  lemma {:induction false} BucketsOfContents(ts: seq<Transaction>, day: string)
    requires day in BucketsOf(ts)
    ensures BucketsOf(ts)[day] == Bucket(Sum(OnDay(ts, day), ExpensePart), OnDay(ts, day))
  {
    var i := |ts| - 1;
    BucketsStep(ts, i);
    OnDayStep(ts, i);
    assert ts[..i + 1] == ts;
    if day in BucketsOf(ts[..i]) {
      BucketsOfContents(ts[..i], day);
    } else {
      assert day == ts[i].date;
      BucketsOfDomain(ts[..i], day);
      FilterKeepsNone(ts[..i], (u: Transaction) => u.date == day);
    }
  }

  /** One more transaction extends its own day only. */
  lemma OnDayStep(ts: seq<Transaction>, i: int)
    requires 0 <= i < |ts|
    ensures OnDay(ts[..i + 1], ts[i].date) == OnDay(ts[..i], ts[i].date) + [ts[i]]
    ensures Sum(OnDay(ts[..i + 1], ts[i].date), ExpensePart) == Sum(OnDay(ts[..i], ts[i].date), ExpensePart) + ExpensePart(ts[i])
    ensures forall d :: d != ts[i].date ==> OnDay(ts[..i + 1], d) == OnDay(ts[..i], d)
  {
    assert ts[..i + 1][..i] == ts[..i];
  }

  /** One more transaction adds its date to the key order when it is new. */
  lemma DaysStep(ts: seq<Transaction>, i: int)
    requires 0 <= i < |ts|
    ensures ts[i].date in Days(ts[..i]) <==> exists k :: 0 <= k < i && ts[k].date == ts[i].date
    ensures Days(ts[..i + 1])
            == if ts[i].date in Days(ts[..i]) then Days(ts[..i]) else Days(ts[..i]) + [ts[i].date]
  {
    assert ts[..i + 1][..i] == ts[..i];
    assert DatesOf(ts[..i + 1]) == DatesOf(ts[..i]) + [ts[i].date];
    assert DatesOf(ts[..i + 1])[..i] == DatesOf(ts[..i]);
    DistinctMembers(DatesOf(ts[..i]));
  }

  /** Every transaction is in exactly its own date's bucket. */
  lemma BucketsPartition(ts: seq<Transaction>, t: Transaction, day: string)
    requires t in ts
    ensures t in OnDay(ts, day) <==> t.date == day
  {
    FilterMember(ts, (u: Transaction) => u.date == day, t);
  }

  /** The days are duplicate-free and are exactly the dates present. */
  lemma DaysAreTheDates(ts: seq<Transaction>)
    ensures forall d :: d in Days(ts) <==> exists k :: 0 <= k < |ts| && ts[k].date == d
    ensures forall d :: multiset(Days(ts))[d] <= 1
  {
    DistinctMembers(DatesOf(ts));
  }

  /** `Math.max(...totals, 1)` over the buckets in key order. */
  function MaxDailySpending(buckets: map<string, Bucket>, days: seq<string>): (r: int)
    requires forall d :: d in days ==> d in buckets
    ensures r >= 1
    ensures forall d :: d in days ==> r >= buckets[d].total
    ensures r == 1 || exists d :: d in days && r == buckets[d].total
  {
    if |days| == 0 then 1
    else
      var rest := MaxDailySpending(buckets, days[..|days| - 1]);
      var last := buckets[days[|days| - 1]].total;
      assert forall d :: d in days ==> d in days[..|days| - 1] || d == days[|days| - 1];
      if last > rest then last else rest
  }

  /** `getTransactionsForDay`: the day's bucket, or nothing. */
  function TransactionsForDay(buckets: map<string, Bucket>, day: string): seq<Transaction>
  {
    if day in buckets then buckets[day].transactions else []
  }

  /** Over the buckets of a list, a day's transactions are exactly the
      transactions on that date, in order, and none for a date not present. */
  lemma DayLookup(ts: seq<Transaction>, day: string)
    ensures TransactionsForDay(BucketsOf(ts), day) == OnDay(ts, day)
  {
    if day in BucketsOf(ts) {
      BucketsOfContents(ts, day);
    } else {
      BucketsOfDomain(ts, day);
      FilterKeepsNone(ts, (u: Transaction) => u.date == day);
    }
  }

  // ---------------------------------------------------------------------
  // The filter choices
  // ---------------------------------------------------------------------

  /** `Array.from(new Set(values)).sort()`. */
  function SortedUnique(values: seq<string>): (r: seq<string>)
    ensures forall x :: x in r <==> x in values
    ensures forall x :: multiset(r)[x] <= 1
    ensures Sorted(r, LexLe)
  {
    DistinctMembers(values);
    LexLeOrders();
    SortBySorted(Distinct(values), LexLe);
    var r := SortBy(Distinct(values), LexLe);
    assert forall x :: x in r <==> x in multiset(r);
    r
  }

  function CategoriesOf(ts: seq<Transaction>): (r: seq<string>)
    ensures |r| == |ts| && forall k :: 0 <= k < |ts| ==> r[k] == ts[k].category
  {
    seq(|ts|, k requires 0 <= k < |ts| => ts[k].category)
  }

  function AccountsOf(ts: seq<Transaction>): (r: seq<string>)
    ensures |r| == |ts| && forall k :: 0 <= k < |ts| ==> r[k] == ts[k].account
  {
    seq(|ts|, k requires 0 <= k < |ts| => ts[k].account)
  }

  /** `categories`: every category present, once each, sorted. */
  function Categories(ts: seq<Transaction>): (r: seq<string>)
    ensures forall c :: c in r <==> exists k :: 0 <= k < |ts| && ts[k].category == c
    ensures forall c :: multiset(r)[c] <= 1
    ensures Sorted(r, LexLe)
  {
    SortedUnique(CategoriesOf(ts))
  }

  /** `accountNames`: every account name present, once each, sorted. */
  function AccountNames(ts: seq<Transaction>): (r: seq<string>)
    ensures forall a :: a in r <==> exists k :: 0 <= k < |ts| && ts[k].account == a
    ensures forall a :: multiset(r)[a] <= 1
    ensures Sorted(r, LexLe)
  {
    SortedUnique(AccountsOf(ts))
  }

  // ---------------------------------------------------------------------
  // The panel's state
  // ---------------------------------------------------------------------

  class Panel {
    var searchQuery: string
    var selectedDate: Option<string>
    var selectedCategory: Option<string>
    var selectedAccount: Option<string>
    var selectedType: Option<string>
    var selectedStatus: Option<string>
    var currentTab: string
    var viewMode: ViewMode
    var currentMonth: string

    /** The panel's initial state; `month` is the month on display. */
    constructor (month: string)
      ensures CurrentQuery() == Query("", None, None, None, None, None, "all")
      ensures viewMode == List && currentMonth == month
    {
      searchQuery, selectedDate, selectedCategory := "", None, None;
      selectedAccount, selectedType, selectedStatus := None, None, None;
      currentTab, viewMode, currentMonth := "all", List, month;
    }

    function CurrentQuery(): Query
      reads this
    {
      Query(searchQuery, selectedDate, selectedCategory, selectedAccount, selectedType, selectedStatus,
            currentTab)
    }

    method SetTab(tab: string)
      modifies this
      ensures CurrentQuery() == old(CurrentQuery()).(tab := tab)
      ensures viewMode == old(viewMode) && currentMonth == old(currentMonth)
    {
      currentTab := tab;
    }

    /** `resetFilters`: the six filters cleared; the tab, the view and the
        month stay. */
    method ResetFilters()
      modifies this
      ensures CurrentQuery() == Query("", None, None, None, None, None, old(currentTab))
      ensures viewMode == old(viewMode) && currentMonth == old(currentMonth)
    {
      searchQuery := "";
      selectedDate := None;
      selectedCategory := None;
      selectedAccount := None;
      selectedType := None;
      selectedStatus := None;
    }
  }

  /** After a reset on the `all` tab the whole list is shown again. */
  lemma ResetShowsAll(ts: seq<Transaction>)
    ensures Filtered(ts, Query("", None, None, None, None, None, "all")) == ts
  {
    NoFiltersShowsAll(ts, "all");
  }
}

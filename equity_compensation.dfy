/** The equity compensation widget: the three value totals, the vesting
    chart (estimated value per calendar year), each grant's vested share and
    upcoming events, the list of the next events across all grants, and the
    badge colour of each grant type. Values are integers in cents; share
    prices are cents per share. `today` is the UTC day of the current
    instant and `yearAhead` the UTC day of the same instant one year later,
    both as `YYYY-MM-DD`. A schedule date stands for midnight UTC of that
    day: it is after the current instant exactly when it is a later day than
    `today`, and before the instant a year ahead when it is not a later day
    than `yearAhead` (the instant is taken to fall after midnight). */
module EquityCompensation {
  import opened Common
  import opened Sorting

  datatype VestingEvent = VestingEvent(date: string, shares: int, estimatedValue: int)

  datatype EquityGrant = EquityGrant(
    id: string,
    company: string,
    grantType: string,
    grantDate: string,
    sharesTotal: int,
    sharesVested: int,
    currentPrice: int,
    grantPrice: int,
    vestingSchedule: seq<VestingEvent>,
    estimatedValue: int)

  function GrantValue(g: EquityGrant): int
  {
    g.estimatedValue
  }

  function VestedValue(g: EquityGrant): int
  {
    g.sharesVested * g.currentPrice
  }

  datatype Totals = Totals(total: int, vested: int, unvested: int)

  /** `totalValue`, `totalVestedValue` and their difference. */
  function EquityTotals(grants: seq<EquityGrant>): (r: Totals)
    ensures r.total == r.vested + r.unvested
  {
    var total := Sum(grants, GrantValue);
    var vested := Sum(grants, VestedValue);
    Totals(total, vested, total - vested)
  }

  /** The unvested value is not negative as long as no grant's vested
      shares are worth more than its estimate. */
  lemma UnvestedNonNegative(grants: seq<EquityGrant>)
    requires forall g :: g in grants ==> VestedValue(g) <= GrantValue(g)
    ensures EquityTotals(grants).unvested >= 0
  {
    SumMonotone(grants, VestedValue, GrantValue);
  }

  // ---------------------------------------------------------------------
  // The vesting chart
  // ---------------------------------------------------------------------

  /** `date.substring(0, 4)`. */
  function Year(date: string): string
  {
    if |date| >= 4 then date[..4] else date
  }

  /** Every grant's schedule, grant after grant. */
  function Events(grants: seq<EquityGrant>): seq<VestingEvent>
  {
    if |grants| == 0 then [] else Events(grants[..|grants| - 1]) + grants[|grants| - 1].vestingSchedule
  }

  /** The map the nested loops build, as the year keys in insertion order
      and the running value of each. */
  datatype Chart = Chart(years: seq<string>, totals: map<string, int>)

  /** `vestingMap.get(year) || 0`. */
  function Get(c: Chart, year: string): int
  {
    if year in c.totals then c.totals[year] else 0
  }

  /** `vestingMap.set(year, value)`: a new key goes to the end of the key
      order, an existing one keeps its place. */
  function Set(c: Chart, year: string, value: int): Chart
  {
    Chart(if year in c.totals then c.years else c.years + [year], c.totals[year := value])
  }

  /** One event: its value added under its year. */
  function AddEvent(c: Chart, e: VestingEvent): Chart
  {
    Set(c, Year(e.date), Get(c, Year(e.date)) + e.estimatedValue)
  }

  /** The map after every event, in order. */
  function ChartOf(es: seq<VestingEvent>): (c: Chart)
    ensures forall y :: y in c.totals <==> y in c.years
  {
    if |es| == 0 then Chart([], map[]) else AddEvent(ChartOf(es[..|es| - 1]), es[|es| - 1])
  }

  datatype YearValue = YearValue(year: string, value: int)

  /** `generateVestingData`: the two nested `forEach` loops, then the map's
      entries in insertion order. */
  method GenerateVestingData(grants: seq<EquityGrant>) returns (data: seq<YearValue>)
    ensures var c := ChartOf(Events(grants));
      |data| == |c.years| && forall k :: 0 <= k < |data| ==> data[k] == YearValue(c.years[k], c.totals[c.years[k]])
  {
    var vestingMap := Chart([], map[]);
    for i := 0 to |grants|
      invariant vestingMap == ChartOf(Events(grants[..i]))
    {
      var schedule := grants[i].vestingSchedule;
      ghost var before := Events(grants[..i]);
      assert before + schedule[..0] == before;
      for j := 0 to |schedule|
        invariant vestingMap == ChartOf(before + schedule[..j])
      {
        ChartStep(before, schedule, j);
        vestingMap := AddEvent(vestingMap, schedule[j]);
      }
      EventsStep(grants, i);
    }
    assert grants[..|grants|] == grants;
    data := seq(|vestingMap.years|, k requires 0 <= k < |vestingMap.years| =>
                                      YearValue(vestingMap.years[k], vestingMap.totals[vestingMap.years[k]]));
  }

  lemma ChartStep(before: seq<VestingEvent>, schedule: seq<VestingEvent>, j: int)
    requires 0 <= j < |schedule|
    ensures ChartOf(before + schedule[..j + 1]) == AddEvent(ChartOf(before + schedule[..j]), schedule[j])
  {
    assert (before + schedule[..j + 1])[..|before| + j] == before + schedule[..j];
  }

  lemma EventsStep(grants: seq<EquityGrant>, i: int)
    requires 0 <= i < |grants|
    ensures Events(grants[..i + 1]) == Events(grants[..i]) + grants[i].vestingSchedule[..|grants[i].vestingSchedule|]
  {
    assert grants[..i + 1][..i] == grants[..i];
    assert grants[i].vestingSchedule[..|grants[i].vestingSchedule|] == grants[i].vestingSchedule;
  }

  function InYear(es: seq<VestingEvent>, y: string): seq<VestingEvent>
  {
    Filter(es, (e: VestingEvent) => Year(e.date) == y)
  }

  function EventValue(e: VestingEvent): int
  {
    e.estimatedValue
  }

  /** The chart has an entry for exactly the years of the events. */
  lemma {:induction false} ChartYears(es: seq<VestingEvent>)
    ensures forall y :: y in ChartOf(es).years <==> exists e :: e in es && Year(e.date) == y
  {
    if |es| > 0 {
      var init := es[..|es| - 1];
      ChartYears(init);
      assert es == init + [es[|es| - 1]];
    }
  }

  /** No year has two entries. */
  lemma {:induction false} ChartDistinct(es: seq<VestingEvent>)
    ensures forall y :: multiset(ChartOf(es).years)[y] <= 1
  {
    if |es| > 0 {
      ChartDistinct(es[..|es| - 1]);
    }
  }

  /** Each year's value is the total estimated value of its events. */
  lemma {:induction false} ChartValues(es: seq<VestingEvent>, y: string)
    requires y in ChartOf(es).totals
    ensures ChartOf(es).totals[y] == Sum(InYear(es, y), EventValue)
  {
    var init := es[..|es| - 1];
    var e := es[|es| - 1];
    InYearSnoc(init, e, y);
    assert es == init + [e];
    if y in ChartOf(init).totals {
      ChartValues(init, y);
    } else {
      AbsentYear(init, y);
    }
  }

  /** One more event joins the events of its own year only. */
  lemma InYearSnoc(init: seq<VestingEvent>, e: VestingEvent, y: string)
    ensures Sum(InYear(init + [e], y), EventValue)
            == Sum(InYear(init, y), EventValue) + if Year(e.date) == y then e.estimatedValue else 0
  {
    assert (init + [e])[..|init|] == init;
    var last: seq<VestingEvent> := if Year(e.date) == y then [e] else [];
    assert InYear(init + [e], y) == InYear(init, y) + last;
    SumAppend(InYear(init, y), last, EventValue);
    assert [e][..0] == [];
  }

  /** A year the chart lacks has no events. */
  lemma AbsentYear(es: seq<VestingEvent>, y: string)
    requires y !in ChartOf(es).totals
    ensures Sum(InYear(es, y), EventValue) == 0
  {
    ChartYears(es);
    forall x | x in es ensures Year(x.date) != y {
    }
    FilterKeepsNone(es, (e: VestingEvent) => Year(e.date) == y);
  }

  /** Σ over the chart's years of their values. */
  function ChartSum(years: seq<string>, totals: map<string, int>): int
    requires forall y :: y in years ==> y in totals
  {
    if |years| == 0 then 0
    else ChartSum(years[..|years| - 1], totals) + totals[years[|years| - 1]]
  }

  /** Adding d under one key that occurs once among the years adds d to the sum. */
  lemma {:induction false} ChartSumUpdate(years: seq<string>, totals: map<string, int>, y: string, d: int)
    requires forall x :: x in years ==> x in totals
    requires multiset(years)[y] == 1
    ensures ChartSum(years, totals[y := totals[y] + d]) == ChartSum(years, totals) + d
  {
    var init := years[..|years| - 1];
    assert years == init + [years[|years| - 1]];
    if years[|years| - 1] == y {
      assert multiset(init)[y] == 0;
      ChartSumUnchanged(init, totals, y, totals[y] + d);
    } else {
      ChartSumUpdate(init, totals, y, d);
    }
  }

  lemma {:induction false} ChartSumUnchanged(years: seq<string>, totals: map<string, int>, y: string, v: int)
    requires forall x :: x in years ==> x in totals
    requires y !in years
    ensures ChartSum(years, totals[y := v]) == ChartSum(years, totals)
  {
    if |years| > 0 {
      ChartSumUnchanged(years[..|years| - 1], totals, y, v);
    }
  }

  /** The chart's values add up to the estimated value of every event. */
  lemma {:induction false} ChartTotal(es: seq<VestingEvent>)
    ensures ChartSum(ChartOf(es).years, ChartOf(es).totals) == Sum(es, EventValue)
  {
    if |es| > 0 {
      var init := es[..|es| - 1];
      ChartTotal(init);
      ChartDistinct(init);
      AddEventSum(ChartOf(init), es[|es| - 1]);
    }
  }

  /** One event adds its value to the sum of a chart whose years are
      duplicate-free. */
  lemma AddEventSum(c: Chart, e: VestingEvent)
    requires forall y :: y in c.totals <==> y in c.years
    requires forall y :: multiset(c.years)[y] <= 1
    ensures forall y :: y in AddEvent(c, e).totals <==> y in AddEvent(c, e).years
    ensures ChartSum(AddEvent(c, e).years, AddEvent(c, e).totals) == ChartSum(c.years, c.totals) + e.estimatedValue
  {
    var y := Year(e.date);
    if y in c.totals {
      assert multiset(c.years)[y] == 1;
      ChartSumUpdate(c.years, c.totals, y, e.estimatedValue);
    } else {
      ChartSumUnchanged(c.years, c.totals, y, e.estimatedValue);
      assert (c.years + [y])[..|c.years|] == c.years;
    }
  }

  // ---------------------------------------------------------------------
  // The grants list
  // ---------------------------------------------------------------------

  /** `Math.round(sharesVested / sharesTotal * 100)`; no finite figure for a
      grant without shares. */
  function VestedPercentage(g: EquityGrant): (r: Option<int>)
    ensures r.Some? <==> g.sharesTotal != 0
    ensures 0 <= g.sharesVested <= g.sharesTotal && g.sharesTotal > 0 ==> 0 <= r.value <= 100
    ensures g.sharesTotal > 0 && g.sharesVested == g.sharesTotal ==> r == Some(100)
  {
    ShareBounds(g.sharesVested, g.sharesTotal);
    if g.sharesTotal != 0 then Some(Round(g.sharesVested as real / g.sharesTotal as real * 100.0)) else None
  }

  lemma ShareBounds(vested: int, total: int)
    ensures 0 <= vested <= total && total > 0 ==> 0.0 <= vested as real / total as real <= 1.0
    ensures total > 0 && vested == total ==> vested as real / total as real == 1.0
  {
    if total > 0 {
      var q := vested as real / total as real;
      assert q * total as real == vested as real;
    }
  }

  /** A day strictly after `today`. */
  predicate IsFuture(date: string, today: string)
  {
    !LexLe(date, today)
  }

  /** Midnight of `date` comes before an instant later than midnight on
      `limit`: the day is `limit` or earlier. */
  predicate IsBefore(date: string, limit: string)
  {
    LexLe(date, limit)
  }

  predicate WithinYear(e: VestingEvent, today: string, yearAhead: string)
  {
    IsFuture(e.date, today) && IsBefore(e.date, yearAhead)
  }

  /** A grant's upcoming events: those of the coming year, at most two, in
      schedule order. */
  function UpcomingForGrant(g: EquityGrant, today: string, yearAhead: string): (r: seq<VestingEvent>)
    ensures |r| <= 2
    ensures forall e :: e in r ==> e in g.vestingSchedule && WithinYear(e, today, yearAhead)
    ensures r <= Filter(g.vestingSchedule, (e: VestingEvent) => WithinYear(e, today, yearAhead))
    ensures var n := |Filter(g.vestingSchedule, (e: VestingEvent) => WithinYear(e, today, yearAhead))|;
      |r| == if n < 2 then n else 2
  {
    var within := Filter(g.vestingSchedule, (e: VestingEvent) => WithinYear(e, today, yearAhead));
    var r := Take(within, 2);
    assert forall e :: e in r ==> e in within;
    forall e | e in within ensures e in g.vestingSchedule && WithinYear(e, today, yearAhead) {
      FilterMember(g.vestingSchedule, (e: VestingEvent) => WithinYear(e, today, yearAhead), e);
    }
    r
  }

  // ---------------------------------------------------------------------
  // The next events across all grants
  // ---------------------------------------------------------------------

  datatype UpcomingEvent = UpcomingEvent(date: string, company: string, grantType: string, shares: int,
                                         value: int)

  function Tag(g: EquityGrant, e: VestingEvent): UpcomingEvent
  {
    UpcomingEvent(e.date, g.company, g.grantType, e.shares, e.estimatedValue)
  }

  /** One grant's future events, tagged with its company and type. */
  function FutureOf(g: EquityGrant, today: string): (r: seq<UpcomingEvent>)
    ensures forall u :: u in r ==> IsFuture(u.date, today) && u.company == g.company
  {
    var future := Filter(g.vestingSchedule, (e: VestingEvent) => IsFuture(e.date, today));
    forall e | e in future ensures IsFuture(e.date, today) {
      FilterMember(g.vestingSchedule, (e: VestingEvent) => IsFuture(e.date, today), e);
    }
    seq(|future|, k requires 0 <= k < |future| => Tag(g, future[k]))
  }

  /** The `flatMap` over the grants. */
  function AllFuture(grants: seq<EquityGrant>, today: string): (r: seq<UpcomingEvent>)
    ensures forall u :: u in r ==> IsFuture(u.date, today)
  {
    if |grants| == 0 then []
    else AllFuture(grants[..|grants| - 1], today) + FutureOf(grants[|grants| - 1], today)
  }

  /** A grant's tagged list holds the tag of each of its future events, and
      nothing else. */
  lemma FutureOfComplete(g: EquityGrant, today: string)
    ensures forall e :: e in g.vestingSchedule && IsFuture(e.date, today) ==> Tag(g, e) in FutureOf(g, today)
    ensures forall u :: u in FutureOf(g, today) ==>
      exists e :: e in g.vestingSchedule && IsFuture(e.date, today) && u == Tag(g, e)
  {
    var p := (e: VestingEvent) => IsFuture(e.date, today);
    var future := Filter(g.vestingSchedule, p);
    var r := FutureOf(g, today);
    forall e | e in g.vestingSchedule && IsFuture(e.date, today) ensures Tag(g, e) in r {
      FilterMember(g.vestingSchedule, p, e);
      var k :| 0 <= k < |future| && future[k] == e;
      assert r[k] == Tag(g, e);
    }
    forall u | u in r ensures exists e :: e in g.vestingSchedule && IsFuture(e.date, today) && u == Tag(g, e) {
      var k :| 0 <= k < |r| && r[k] == u;
      FilterMember(g.vestingSchedule, p, future[k]);
      assert u == Tag(g, future[k]);
    }
  }

  /** The `flatMap` takes every future event of every grant, tagged with its
      grant, and nothing else. */
  lemma {:induction false} AllFutureComplete(grants: seq<EquityGrant>, today: string)
    ensures forall g, e :: g in grants && e in g.vestingSchedule && IsFuture(e.date, today) ==>
      Tag(g, e) in AllFuture(grants, today)
    ensures forall u :: u in AllFuture(grants, today) ==>
      exists g, e :: g in grants && e in g.vestingSchedule && IsFuture(e.date, today) && u == Tag(g, e)
  {
    if |grants| > 0 {
      var init := grants[..|grants| - 1];
      var last := grants[|grants| - 1];
      AllFutureComplete(init, today);
      FutureOfComplete(last, today);
      assert grants == init + [last];
      forall g, e | g in grants && e in g.vestingSchedule && IsFuture(e.date, today)
        ensures Tag(g, e) in AllFuture(grants, today)
      {
        if g == last {
          assert Tag(g, e) in FutureOf(last, today);
        } else {
          assert g in init;
        }
      }
      forall u | u in AllFuture(grants, today)
        ensures exists g, e :: g in grants && e in g.vestingSchedule && IsFuture(e.date, today) && u == Tag(g, e)
      {
        if u in FutureOf(last, today) {
          var e :| e in last.vestingSchedule && IsFuture(e.date, today) && u == Tag(last, e);
          assert last in grants;
        } else {
          assert u in AllFuture(init, today);
          var g, e :| g in init && e in g.vestingSchedule && IsFuture(e.date, today) && u == Tag(g, e);
          assert g in grants;
        }
      }
    }
  }

  /** The comparator `date(a) - date(b)`. */
  predicate SoonerFirst(a: UpcomingEvent, b: UpcomingEvent)
  {
    LexLe(a.date, b.date)
  }

  lemma SoonerFirstOrders()
    ensures TotalPreorder(SoonerFirst)
  {
    forall a: UpcomingEvent, b: UpcomingEvent ensures SoonerFirst(a, b) || SoonerFirst(b, a) {
      LexLeTotal(a.date, b.date);
    }
    forall a: UpcomingEvent, b: UpcomingEvent, c: UpcomingEvent | SoonerFirst(a, b) && SoonerFirst(b, c)
      ensures SoonerFirst(a, c)
    {
      LexLeTransitive(a.date, b.date, c.date);
    }
  }

  /** The future events of every grant, soonest first. */
  function SortedFuture(grants: seq<EquityGrant>, today: string): (r: seq<UpcomingEvent>)
    ensures multiset(r) == multiset(AllFuture(grants, today))
    ensures Sorted(r, SoonerFirst)
  {
    SoonerFirstOrders();
    SortBySorted(AllFuture(grants, today), SoonerFirst);
    SortBy(AllFuture(grants, today), SoonerFirst)
  }

  /** The list under the vesting chart: the first five of those. */
  function UpcomingEvents(grants: seq<EquityGrant>, today: string): (r: seq<UpcomingEvent>)
    ensures |r| <= 5
    ensures Sorted(r, SoonerFirst)
    ensures forall u :: u in r ==> u in AllFuture(grants, today) && IsFuture(u.date, today)
    ensures r <= SortedFuture(grants, today)
    ensures |r| == if |SortedFuture(grants, today)| < 5 then |SortedFuture(grants, today)| else 5
  {
    var s := SortedFuture(grants, today);
    var r := Take(s, 5);
    assert forall u :: u in r ==> u in multiset(s);
    r
  }

  /** Nothing left out of the list is sooner than anything in it. */
  lemma UpcomingAreSoonest(grants: seq<EquityGrant>, today: string, i: int, j: int)
    requires 0 <= i < |UpcomingEvents(grants, today)| <= j < |SortedFuture(grants, today)|
    ensures LexLe(UpcomingEvents(grants, today)[i].date, SortedFuture(grants, today)[j].date)
  {
  }

  // ---------------------------------------------------------------------
  // Badges
  // ---------------------------------------------------------------------

  const Gray: string := "bg-gray-100 text-gray-800"

  /** `getGrantTypeColor`. */
  function GrantTypeColor(grantType: string): (r: string)
    ensures r == Gray <==> grantType !in {"RSU", "ISO", "NSO", "ESPP", "PSU"}
  {
    match grantType
    case "RSU" => "bg-blue-100 text-blue-800"
    case "ISO" => "bg-purple-100 text-purple-800"
    case "NSO" => "bg-green-100 text-green-800"
    case "ESPP" => "bg-amber-100 text-amber-800"
    case "PSU" => "bg-pink-100 text-pink-800"
    case _ => Gray
  }
}

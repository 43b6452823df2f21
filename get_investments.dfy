/** The investments edge function: for every active item, its holdings,
    securities and recent investment transactions; an item whose provider
    calls fail contributes empty lists instead of failing the request. The
    per-item results are then merged into four lists in item order. */
module GetInvestments {
  import opened Common
  import opened PlaidTypes
  import Provider
  import opened ItemStore

  const UnknownSecurity: string := "Unknown Security"

  /** What one item's handler returns: its tags, the provider's four lists
      and, when a call failed, the message. */
  datatype ItemData = ItemData(
    institution: string,
    itemId: string,
    accounts: seq<Provider.Account>,
    holdings: seq<Provider.Holding>,
    securities: seq<Provider.Security>,
    investmentTransactions: seq<Provider.InvestmentTransaction>,
    error: Option<string>)

  /** The calls of one item, in order; the first failure ends them. */
  function FetchItem(client: Provider.Client, item: ItemRow, startDate: string, endDate: string)
    : Result<ItemData>
  {
    var institution :- Provider.InstitutionName(client, item.accessToken);
    var holdings :- client.investmentsHoldingsGet(item.accessToken);
    var txs :- client.investmentsTransactionsGet(item.accessToken, startDate, endDate);
    Ok(ItemData(institution, item.itemId, holdings.accounts, holdings.holdings, holdings.securities, txs, None))
  }

  /** One item's handler with its own catch: a failure becomes the unknown
      institution, four empty lists and the message. */
  function ItemInvestments(client: Provider.Client, item: ItemRow, startDate: string, endDate: string)
    : (d: ItemData)
    ensures d.itemId == item.itemId
    ensures FetchItem(client, item, startDate, endDate).Ok? ==> d == FetchItem(client, item, startDate, endDate).value
    ensures FetchItem(client, item, startDate, endDate).Err? ==>
      d == ItemData(Provider.UnknownInstitution, item.itemId, [], [], [], [],
                    Some(FetchItem(client, item, startDate, endDate).error))
  {
    match FetchItem(client, item, startDate, endDate)
    case Ok(data) => data
    case Err(e) => ItemData(Provider.UnknownInstitution, item.itemId, [], [], [], [], Some(e))
  }

  /** `securities.find(sec => sec.security_id === holding.security_id)`:
      the first security with the holding's id. */
  function FindSecurity(securities: seq<Provider.Security>, holding: Provider.Holding): (r: Option<Provider.Security>)
    ensures r.None? <==> forall i :: 0 <= i < |securities| ==> holding.securityId != Some(securities[i].securityId)
    ensures r.Some? ==> exists i :: 0 <= i < |securities| && securities[i] == r.value
                          && holding.securityId == Some(securities[i].securityId)
                          && forall j :: 0 <= j < i ==> holding.securityId != Some(securities[j].securityId)
  {
    if |securities| == 0 then None
    else if holding.securityId == Some(securities[0].securityId) then Some(securities[0])
    else
      var r := FindSecurity(securities[1..], holding);
      assert forall i :: 0 < i < |securities| ==> securities[i] == securities[1..][i - 1];
      if r.Some? then
        assert exists i :: 0 <= i < |securities| && securities[i] == r.value
                          && holding.securityId == Some(securities[i].securityId)
                          && forall j :: 0 <= j < i ==> holding.securityId != Some(securities[j].securityId) by {
          var i :| 0 <= i < |securities[1..]| && securities[1..][i] == r.value
                   && holding.securityId == Some(securities[1..][i].securityId)
                   && forall j :: 0 <= j < i ==> holding.securityId != Some(securities[1..][j].securityId);
          assert securities[i + 1] == r.value;
          forall j | 0 <= j < i + 1 ensures holding.securityId != Some(securities[j].securityId) {
            if j > 0 { assert securities[j] == securities[1..][j - 1]; }
          }
        }
        r
      else r
  }

  /** A holding with its item's tags and the joined security's details; the
      holding is kept whether or not a security matches. */
  function HoldingWithDetails(h: Provider.Holding, securities: seq<Provider.Security>,
                              institution: string, itemId: string): (d: HoldingDetail)
    ensures d.holding == h && d.institution == institution && d.itemId == itemId
    ensures var s := FindSecurity(securities, h);
      && (s.Some? && Truthy(s.value.name) ==> d.securityName == s.value.name.value)
      && (s.None? || !Truthy(s.value.name) ==> d.securityName == UnknownSecurity)
      && d.tickerSymbol == (if s.Some? then s.value.tickerSymbol else None)
      && d.securityType == (if s.Some? then s.value.securityType else None)
  {
    match FindSecurity(securities, h)
    case None => HoldingDetail(h, institution, itemId, UnknownSecurity, None, None)
    case Some(s) => HoldingDetail(h, institution, itemId, OrElse(s.name, UnknownSecurity), s.tickerSymbol, s.securityType)
  }

  /** The four lists one item adds: accounts, holdings and investment
      transactions tagged, securities as the provider sent them. */
  function FormatItem(d: ItemData): (b: InvestmentBundle)
    ensures |b.accounts| == |d.accounts| && |b.holdings| == |d.holdings|
    ensures b.securities == d.securities && |b.investmentTransactions| == |d.investmentTransactions|
    ensures forall k :: 0 <= k < |d.accounts| ==> b.accounts[k] == TaggedAccount(d.accounts[k], d.institution, d.itemId)
    ensures forall k :: 0 <= k < |d.holdings| ==>
      b.holdings[k] == HoldingWithDetails(d.holdings[k], d.securities, d.institution, d.itemId)
    ensures forall k :: 0 <= k < |d.investmentTransactions| ==>
      b.investmentTransactions[k] == TaggedInvestmentTransaction(d.investmentTransactions[k], d.institution, d.itemId)
  {
    InvestmentBundle(
      seq(|d.accounts|, k requires 0 <= k < |d.accounts| => TaggedAccount(d.accounts[k], d.institution, d.itemId)),
      seq(|d.holdings|, k requires 0 <= k < |d.holdings| =>
        HoldingWithDetails(d.holdings[k], d.securities, d.institution, d.itemId)),
      d.securities,
      seq(|d.investmentTransactions|, k requires 0 <= k < |d.investmentTransactions| =>
        TaggedInvestmentTransaction(d.investmentTransactions[k], d.institution, d.itemId)))
  }

  /** Field-wise concatenation, `[...acc.f, ...more.f]`. */
  function Append(acc: InvestmentBundle, more: InvestmentBundle): InvestmentBundle
  {
    InvestmentBundle(acc.accounts + more.accounts, acc.holdings + more.holdings,
                     acc.securities + more.securities, acc.investmentTransactions + more.investmentTransactions)
  }

  /** The formatted data after the loop has seen every item of ds. */
  function Merged(ds: seq<ItemData>): InvestmentBundle
  {
    if |ds| == 0 then EmptyInvestments
    else Append(Merged(ds[..|ds| - 1]), FormatItem(ds[|ds| - 1]))
  }

  /** The `forEach` that reassigns the four fields. */
  method FormatInvestments(ds: seq<ItemData>) returns (f: InvestmentBundle)
    ensures f == Merged(ds)
  {
    f := EmptyInvestments;
    var i := 0;
    while i < |ds|
      invariant 0 <= i <= |ds|
      invariant f == Merged(ds[..i])
    {
      assert ds[..i + 1][..i] == ds[..i];
      var more := FormatItem(ds[i]);
      f := InvestmentBundle(f.accounts + more.accounts, f.holdings + more.holdings,
                            f.securities + more.securities, f.investmentTransactions + more.investmentTransactions);
      i := i + 1;
    }
    assert ds[..i] == ds;
  }

  /** The whole request; `startDate` and `endDate` are the default window. */
  method GetInvestments(session: Option<string>, rows: seq<ItemRow>, queryError: Option<string>,
                        client: Provider.Client, startDate: string, endDate: string)
    returns (r: Response<InvestmentsBody>)
    ensures session.None? ==> r == Response(401, Error(NotAuthenticated))
    ensures session.Some? && queryError.Some? ==> r == Response(500, Error(queryError.value))
    ensures session.Some? && queryError.None? && ActiveItems(rows, session.value) == []
            ==> r == Response(200, Data(NoInvestmentItems))
    ensures session.Some? && queryError.None? && ActiveItems(rows, session.value) != [] ==>
      var items := ActiveItems(rows, session.value);
      r == Response(200, Data(Investments(Merged(
             seq(|items|, i requires 0 <= i < |items| => ItemInvestments(client, items[i], startDate, endDate))))))
  {
    if session.None? {
      return Response(401, Error(NotAuthenticated));
    }
    var selected := SelectActive(rows, session.value, queryError);
    if selected.Err? {
      return Response(500, Error(selected.error));
    }
    var items := selected.value;
    if |items| == 0 {
      return Response(200, Data(NoInvestmentItems));
    }
    var ds := seq(|items|, i requires 0 <= i < |items| => ItemInvestments(client, items[i], startDate, endDate));
    var formatted := FormatInvestments(ds);
    r := Response(200, Data(Investments(formatted)));
  }

  lemma {:induction false} MergedAppend(a: seq<ItemData>, b: seq<ItemData>)
    ensures Merged(a + b) == Append(Merged(a), Merged(b))
  {
    if |b| == 0 {
      assert a + b == a;
      AppendEmpty(Merged(a));
    } else {
      var init := b[..|b| - 1];
      var last := b[|b| - 1];
      assert (a + b)[..|a + b| - 1] == a + init;
      assert (a + b)[|a + b| - 1] == last;
      MergedAppend(a, init);
      AppendAssociative(Merged(a), Merged(init), FormatItem(last));
    }
  }

  lemma AppendEmpty(x: InvestmentBundle)
    ensures Append(x, EmptyInvestments) == x
  {
    assert x.accounts + [] == x.accounts && x.holdings + [] == x.holdings;
    assert x.securities + [] == x.securities && x.investmentTransactions + [] == x.investmentTransactions;
  }

  lemma AppendAssociative(x: InvestmentBundle, y: InvestmentBundle, z: InvestmentBundle)
    ensures Append(Append(x, y), z) == Append(x, Append(y, z))
  {
    assert (x.accounts + y.accounts) + z.accounts == x.accounts + (y.accounts + z.accounts);
    assert (x.holdings + y.holdings) + z.holdings == x.holdings + (y.holdings + z.holdings);
    assert (x.securities + y.securities) + z.securities == x.securities + (y.securities + z.securities);
    assert (x.investmentTransactions + y.investmentTransactions) + z.investmentTransactions
           == x.investmentTransactions + (y.investmentTransactions + z.investmentTransactions);
  }

  /** Each merged list has as many entries as the items' lists together:
      no account, holding, security or transaction is dropped. */
  lemma {:induction false} MergedCounts(ds: seq<ItemData>)
    ensures |Merged(ds).accounts| == Sum(ds, (d: ItemData) => |d.accounts|)
    ensures |Merged(ds).holdings| == Sum(ds, (d: ItemData) => |d.holdings|)
    ensures |Merged(ds).securities| == Sum(ds, (d: ItemData) => |d.securities|)
    ensures |Merged(ds).investmentTransactions| == Sum(ds, (d: ItemData) => |d.investmentTransactions|)
  {
    if |ds| > 0 {
      MergedCounts(ds[..|ds| - 1]);
    }
  }

  /** Each merged list is the items' formatted lists in item order: the
      entries of item i come after those of every earlier item. */
  lemma {:induction false} MergedOrder(a: seq<ItemData>, d: ItemData)
    ensures Merged(a + [d]).holdings == Merged(a).holdings + FormatItem(d).holdings
    ensures Merged(a + [d]).accounts == Merged(a).accounts + FormatItem(d).accounts
    ensures Merged(a + [d]).securities == Merged(a).securities + d.securities
    ensures Merged(a + [d]).investmentTransactions
            == Merged(a).investmentTransactions + FormatItem(d).investmentTransactions
  {
    assert (a + [d])[..|a + [d]| - 1] == a;
  }

  /** Every merged holding is some item's holding, tagged with that item and
      joined against that item's securities only. */
  lemma {:induction false} HoldingOrigin(ds: seq<ItemData>, h: HoldingDetail)
    requires h in Merged(ds).holdings
    ensures exists i, k :: 0 <= i < |ds| && 0 <= k < |ds[i].holdings| &&
              h == HoldingWithDetails(ds[i].holdings[k], ds[i].securities, ds[i].institution, ds[i].itemId)
  {
    var init := ds[..|ds| - 1];
    var last := ds[|ds| - 1];
    if h in Merged(init).holdings {
      HoldingOrigin(init, h);
      var i, k :| 0 <= i < |init| && 0 <= k < |init[i].holdings|
        && h == HoldingWithDetails(init[i].holdings[k], init[i].securities, init[i].institution, init[i].itemId);
      assert init[i] == ds[i];
    } else {
      var k :| 0 <= k < |FormatItem(last).holdings| && FormatItem(last).holdings[k] == h;
      assert h == HoldingWithDetails(ds[|ds| - 1].holdings[k], last.securities, last.institution, last.itemId);
    }
  }

  /** An item with four empty lists leaves the merged data unchanged. */
  lemma EmptyItemContributesNothing(ds: seq<ItemData>, i: int)
    requires 0 <= i < |ds|
    requires ds[i].accounts == [] && ds[i].holdings == [] && ds[i].securities == []
    requires ds[i].investmentTransactions == []
    ensures Merged(ds) == Merged(ds[..i] + ds[i + 1..])
  {
    var a, b := ds[..i], ds[i + 1..];
    var x := ds[i];
    assert FormatItem(x) == EmptyInvestments;
    assert Merged(a + [x]) == Merged(a) by {
      assert (a + [x])[..|a + [x]| - 1] == a;
      var m := Merged(a);
      assert m.accounts + [] == m.accounts && m.holdings + [] == m.holdings;
      assert m.securities + [] == m.securities && m.investmentTransactions + [] == m.investmentTransactions;
    }
    SplitAt(ds, i);
    MergedAppend(a + [x], b);
    MergedAppend(a, b);
  }

  /** Failure isolation: an item whose calls failed adds nothing, so the
      merged data equals the merge of the other items alone. */
  lemma FailedItemContributesNothing(client: Provider.Client, items: seq<ItemRow>, startDate: string,
                                     endDate: string, i: int)
    requires 0 <= i < |items|
    requires FetchItem(client, items[i], startDate, endDate).Err?
    ensures var ds := seq(|items|, j requires 0 <= j < |items| => ItemInvestments(client, items[j], startDate, endDate));
      Merged(ds) == Merged(ds[..i] + ds[i + 1..])
  {
    var ds := seq(|items|, j requires 0 <= j < |items| => ItemInvestments(client, items[j], startDate, endDate));
    EmptyItemContributesNothing(ds, i);
  }
}

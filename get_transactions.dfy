/** The transactions edge function: for every active item, the institution
    name, the item's accounts as a lookup by account id, and the provider's
    transactions in the requested window, each joined to its account and
    tagged; the lists are concatenated and sorted newest first. Any failure
    fails the request. */
module GetTransactions {
  import opened Common
  import opened Sorting
  import opened PlaidTypes
  import Provider
  import opened ItemStore

  const UnknownAccountName: string := "Unknown Account"

  /** `{name: "Unknown Account"}`: the summary of an account not in the lookup. */
  const UnknownAccount: AccountRef := AccountRef(UnknownAccountName, None, None, None)

  function RefOf(a: Provider.Account): AccountRef
  {
    AccountRef(a.name, a.mask, Some(a.accountType), a.subtype)
  }

  /** The date window: each bound is its query parameter when that is
      non-empty, otherwise its default, independently of the other. */
  function Window(startParam: Option<string>, endParam: Option<string>, today: string, monthAgo: string)
    : (w: (string, string))
    ensures Truthy(startParam) ==> w.0 == startParam.value
    ensures !Truthy(startParam) ==> w.0 == monthAgo
    ensures Truthy(endParam) ==> w.1 == endParam.value
    ensures !Truthy(endParam) ==> w.1 == today
  {
    (OrElse(startParam, monthAgo), OrElse(endParam, today))
  }

  /** The lookup the accounts loop leaves behind: every account written under
      its id in list order, so a later account overwrites an earlier one. */
  function AccountMapOf(accounts: seq<Provider.Account>): map<string, AccountRef>
  {
    if |accounts| == 0 then map[]
    else
      var last := accounts[|accounts| - 1];
      AccountMapOf(accounts[..|accounts| - 1])[last.accountId := RefOf(last)]
  }

  /** The `forEach` that fills the lookup. */
  method BuildAccountMap(accounts: seq<Provider.Account>) returns (m: map<string, AccountRef>)
    ensures m == AccountMapOf(accounts)
  {
    m := map[];
    var i := 0;
    while i < |accounts|
      invariant 0 <= i <= |accounts|
      invariant m == AccountMapOf(accounts[..i])
    {
      assert accounts[..i + 1][..i] == accounts[..i];
      m := m[accounts[i].accountId := RefOf(accounts[i])];
      i := i + 1;
    }
    assert accounts[..i] == accounts;
  }

  /** The lookup has an entry exactly for the ids the accounts carry. */
  lemma {:induction false} AccountMapDomain(accounts: seq<Provider.Account>, id: string)
    ensures id in AccountMapOf(accounts) <==> exists j :: 0 <= j < |accounts| && accounts[j].accountId == id
  {
    if |accounts| > 0 {
      var init := accounts[..|accounts| - 1];
      AccountMapDomain(init, id);
      assert forall j :: 0 <= j < |init| ==> init[j] == accounts[j];
    }
  }

  /** The entry under an id is the last account carrying that id. */
  lemma {:induction false} AccountMapLastWins(accounts: seq<Provider.Account>, j: int)
    requires 0 <= j < |accounts|
    requires forall k :: j < k < |accounts| ==> accounts[k].accountId != accounts[j].accountId
    ensures accounts[j].accountId in AccountMapOf(accounts)
    ensures AccountMapOf(accounts)[accounts[j].accountId] == RefOf(accounts[j])
  {
    if j < |accounts| - 1 {
      var init := accounts[..|accounts| - 1];
      assert init[j] == accounts[j];
      AccountMapLastWins(init, j);
    }
  }

  /** One provider transaction as the endpoint returns it. */
  function MapTransaction(t: Provider.Transaction, accountMap: map<string, AccountRef>,
                          institution: string, itemId: string): (p: PlaidTransaction)
    ensures p.id == t.transactionId && p.accountId == t.accountId && p.date == t.date
    ensures p.description == t.name && p.amount == t.amount && p.currency == t.isoCurrencyCode
    ensures p.institution == institution && p.itemId == itemId
    ensures p.account == if t.accountId in accountMap then accountMap[t.accountId] else UnknownAccount
  {
    PlaidTransaction(t.transactionId, t.accountId,
      if t.accountId in accountMap then accountMap[t.accountId] else UnknownAccount,
      t.date, t.name, t.merchantName, t.amount, t.isoCurrencyCode, t.category, t.categoryId,
      t.pending, institution, itemId)
  }

  function MapTransactions(ts: seq<Provider.Transaction>, accountMap: map<string, AccountRef>,
                           institution: string, itemId: string): (r: seq<PlaidTransaction>)
    ensures |r| == |ts|
    ensures forall k :: 0 <= k < |ts| ==> r[k] == MapTransaction(ts[k], accountMap, institution, itemId)
  {
    seq(|ts|, k requires 0 <= k < |ts| => MapTransaction(ts[k], accountMap, institution, itemId))
  }

  /** One item's share, in the order of the calls: item and institution
      lookups, accounts, then transactions. */
  function ItemTransactions(client: Provider.Client, item: ItemRow, startDate: string, endDate: string)
    : Result<seq<PlaidTransaction>>
  {
    var institution :- Provider.InstitutionName(client, item.accessToken);
    var accounts :- client.accountsGet(item.accessToken);
    var ts :- client.transactionsGet(item.accessToken, startDate, endDate);
    Ok(MapTransactions(ts, AccountMapOf(accounts), institution, item.itemId))
  }

  /** Every item's share, or the first failure. */
  function FetchItems(items: seq<ItemRow>, client: Provider.Client, startDate: string, endDate: string)
    : Result<seq<seq<PlaidTransaction>>>
  {
    All(items, (item: ItemRow) => ItemTransactions(client, item, startDate, endDate))
  }

  /** The comparator `date(b) - date(a)`: a may come first when it is no older. */
  predicate NewestFirst(a: PlaidTransaction, b: PlaidTransaction)
  {
    LexLe(b.date, a.date)
  }

  lemma NewestFirstOrders()
    ensures TotalPreorder(NewestFirst)
  {
    forall a: PlaidTransaction, b: PlaidTransaction ensures NewestFirst(a, b) || NewestFirst(b, a) {
      LexLeTotal(a.date, b.date);
    }
    forall a: PlaidTransaction, b: PlaidTransaction, c: PlaidTransaction
      | NewestFirst(a, b) && NewestFirst(b, c)
      ensures NewestFirst(a, c)
    {
      LexLeTransitive(c.date, b.date, a.date);
    }
  }

  /** The whole request. `today` and `monthAgo` are the two default dates. */
  method GetTransactions(session: Option<string>, startParam: Option<string>, endParam: Option<string>,
                         today: string, monthAgo: string, rows: seq<ItemRow>, queryError: Option<string>,
                         client: Provider.Client) returns (r: Response<seq<PlaidTransaction>>)
    ensures session.None? ==> r == Response(401, Error(NotAuthenticated))
    ensures session.Some? && queryError.Some? ==> r == Response(500, Error(queryError.value))
    ensures session.Some? && queryError.None? && ActiveItems(rows, session.value) == []
            ==> r == Response(200, Data([]))
    ensures session.Some? && queryError.None? && ActiveItems(rows, session.value) != [] ==>
      var w := Window(startParam, endParam, today, monthAgo);
      var fetched := FetchItems(ActiveItems(rows, session.value), client, w.0, w.1);
      && (fetched.Err? ==> r == Response(500, Error(fetched.error)))
      && (fetched.Ok? ==> r.status == 200 && r.body.Data?
                          && multiset(r.body.data) == multiset(Flatten(fetched.value))
                          && Sorted(r.body.data, NewestFirst))
  {
    if session.None? {
      return Response(401, Error(NotAuthenticated));
    }
    var w := Window(startParam, endParam, today, monthAgo);
    var selected := SelectActive(rows, session.value, queryError);
    if selected.Err? {
      return Response(500, Error(selected.error));
    }
    var items := selected.value;
    if |items| == 0 {
      return Response(200, Data([]));
    }
    var fetched := FetchItems(items, client, w.0, w.1);
    if fetched.Err? {
      return Response(500, Error(fetched.error));
    }
    var all := Flatten(fetched.value);
    var a := new PlaidTransaction[|all|](k requires 0 <= k < |all| => all[k]);
    assert a[..] == all;
    NewestFirstOrders();
    SortInPlace(a, NewestFirst);
    r := Response(200, Data(a[..]));
  }

  /** Each returned transaction keeps the provider's amount and is joined to
      the last account of its own item that carries its account id, or to the
      unknown-account summary when none does. */
  lemma AccountJoin(client: Provider.Client, item: ItemRow, startDate: string, endDate: string, k: int)
    requires ItemTransactions(client, item, startDate, endDate).Ok?
    requires 0 <= k < |ItemTransactions(client, item, startDate, endDate).value|
    ensures var accounts := client.accountsGet(item.accessToken).value;
      var t := client.transactionsGet(item.accessToken, startDate, endDate).value[k];
      var p := ItemTransactions(client, item, startDate, endDate).value[k];
      && p.amount == t.amount && p.itemId == item.itemId
      && ((forall j :: 0 <= j < |accounts| ==> accounts[j].accountId != t.accountId) ==> p.account == UnknownAccount)
    ensures var accounts := client.accountsGet(item.accessToken).value;
      var t := client.transactionsGet(item.accessToken, startDate, endDate).value[k];
      var p := ItemTransactions(client, item, startDate, endDate).value[k];
      forall j :: 0 <= j < |accounts| && accounts[j].accountId == t.accountId
                  && (forall m :: j < m < |accounts| ==> accounts[m].accountId != t.accountId)
                  ==> p.account == RefOf(accounts[j])
  {
    var accounts := client.accountsGet(item.accessToken).value;
    var t := client.transactionsGet(item.accessToken, startDate, endDate).value[k];
    AccountMapDomain(accounts, t.accountId);
    forall j | 0 <= j < |accounts| && accounts[j].accountId == t.accountId
               && (forall m :: j < m < |accounts| ==> accounts[m].accountId != t.accountId)
    {
      AccountMapLastWins(accounts, j);
    }
  }

  /** No per-item isolation: a failing item makes the whole fetch fail with
      the first failing item's message. */
  lemma ItemFailureFailsRequest(items: seq<ItemRow>, client: Provider.Client, startDate: string, endDate: string,
                                i: int)
    requires 0 <= i < |items| && ItemTransactions(client, items[i], startDate, endDate).Err?
    ensures FetchItems(items, client, startDate, endDate).Err?
    ensures exists j :: 0 <= j <= i && ItemTransactions(client, items[j], startDate, endDate)
                                       == Err(FetchItems(items, client, startDate, endDate).error)
  {
  }
}

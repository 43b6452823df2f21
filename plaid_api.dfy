/** The browser-side provider helpers: a token exchange that records the
    item, and three fan-outs over the user's active items that return the
    provider's lists untagged and concatenated. Every failure is rethrown. */
module PlaidApi {
  import opened Common
  import Provider
  import opened ItemStore

  /** The per-item lists of one call, in item order. */
  function PerItem<T>(items: seq<ItemRow>, call: string -> Result<seq<T>>): (r: seq<Result<seq<T>>>)
    ensures |r| == |items| && forall i :: 0 <= i < |items| ==> r[i] == call(items[i].accessToken)
  {
    seq(|items|, i requires 0 <= i < |items| => call(items[i].accessToken))
  }

  /** The lists of the calls, in call order; a failed call has none. */
  function Values<T>(calls: seq<Result<seq<T>>>): (r: seq<seq<T>>)
    ensures |r| == |calls| && forall i :: 0 <= i < |calls| && calls[i].Ok? ==> r[i] == calls[i].value
  {
    seq(|calls|, i requires 0 <= i < |calls| => if calls[i].Ok? then calls[i].value else [])
  }

  /** The shape the three readers share: select the active items, answer an
      empty list without any call when there are none, otherwise call once
      per item and concatenate, failing on the first failure. */
  function FanOut<T>(userId: string, rows: seq<ItemRow>, queryError: Option<string>,
                     call: string -> Result<seq<T>>): (r: Result<seq<T>>)
    ensures queryError.Some? ==> r == Err(queryError.value)
    ensures queryError.None? && ActiveItems(rows, userId) == [] ==> r == Ok([])
    ensures queryError.None? ==>
      var calls := PerItem(ActiveItems(rows, userId), call);
      && (r.Ok? <==> forall i :: 0 <= i < |calls| ==> calls[i].Ok?)
      && (r.Ok? ==> r.value == Flatten(Values(calls)) && |r.value| == TotalLength(Values(calls)))
      && (r.Err? ==> exists i :: 0 <= i < |calls| && calls[i] == Err(r.error))
  {
    match SelectActive(rows, userId, queryError)
    case Err(e) => Err(e)
    case Ok(items) =>
      if |items| == 0 then Ok([])
      else
        var all := All(items, (item: ItemRow) => call(item.accessToken));
        var calls := PerItem(items, call);
        if all.Ok? then
          assert all.value == Values(calls);
          FlattenLength(Values(calls));
          Ok(Flatten(all.value))
        else Err(all.error)
  }

  /** `exchangePublicToken`: the exchange, then one active row for the user;
      the item id when both succeed. */
  method ExchangePublicToken(table: ItemsTable, publicToken: string, userId: string, client: Provider.Client,
                             insertFailure: Option<string>) returns (r: Result<string>)
    modifies table
    ensures var exchanged := client.itemPublicTokenExchange(publicToken);
      && (exchanged.Err? ==> r == Err(exchanged.error) && table.rows == old(table.rows))
      && (exchanged.Ok? && insertFailure.Some? ==> r == Err(insertFailure.value) && table.rows == old(table.rows))
      && (exchanged.Ok? && insertFailure.None? ==>
            r == Ok(exchanged.value.itemId)
            && table.rows == old(table.rows) + [ItemRow(userId, exchanged.value.itemId,
                                                        exchanged.value.accessToken, Active)])
  {
    var exchanged := client.itemPublicTokenExchange(publicToken);
    if exchanged.Err? {
      return Err(exchanged.error);
    }
    var error := table.Insert(ItemRow(userId, exchanged.value.itemId, exchanged.value.accessToken, Active),
                              insertFailure);
    if error.Some? {
      return Err(error.value);
    }
    r := Ok(exchanged.value.itemId);
  }

  /** `getAccounts`: the raw provider accounts of every active item. */
  function GetAccounts(userId: string, rows: seq<ItemRow>, queryError: Option<string>, client: Provider.Client)
    : (r: Result<seq<Provider.Account>>)
    ensures queryError.None? && ActiveItems(rows, userId) == [] ==> r == Ok([])
    ensures r.Ok? && queryError.None? ==> var calls := PerItem(ActiveItems(rows, userId), client.accountsGet);
      && (forall i :: 0 <= i < |calls| ==> calls[i].Ok?)
      && r.value == Flatten(Values(calls))
  {
    FanOut(userId, rows, queryError, client.accountsGet)
  }

  /** `getTransactions`: the window is passed to every call unchanged. */
  function GetTransactions(userId: string, startDate: string, endDate: string, rows: seq<ItemRow>,
                           queryError: Option<string>, client: Provider.Client)
    : (r: Result<seq<Provider.Transaction>>)
    ensures queryError.None? && ActiveItems(rows, userId) == [] ==> r == Ok([])
    ensures r.Ok? && queryError.None? ==>
      var calls := PerItem(ActiveItems(rows, userId), (token: string) => client.transactionsGet(token, startDate, endDate));
      && (forall i :: 0 <= i < |calls| ==> calls[i].Ok?)
      && r.value == Flatten(Values(calls))
  {
    FanOut(userId, rows, queryError, (token: string) => client.transactionsGet(token, startDate, endDate))
  }

  /** `getBalances`: the same rules over the balance call. */
  function GetBalances(userId: string, rows: seq<ItemRow>, queryError: Option<string>, client: Provider.Client)
    : (r: Result<seq<Provider.Account>>)
    ensures queryError.None? && ActiveItems(rows, userId) == [] ==> r == Ok([])
    ensures r.Ok? && queryError.None? ==> var calls := PerItem(ActiveItems(rows, userId), client.accountsBalanceGet);
      && (forall i :: 0 <= i < |calls| ==> calls[i].Ok?)
      && r.value == Flatten(Values(calls))
  {
    FanOut(userId, rows, queryError, client.accountsBalanceGet)
  }
}

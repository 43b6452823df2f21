/** The accounts edge function: for every active item of the signed-in
    user, the provider's accounts, each tagged with its item and the item's
    institution, concatenated in item order. Any failure fails the request. */
module GetAccounts {
  import opened Common
  import opened PlaidTypes
  import Provider
  import opened ItemStore

  /** The account record the endpoint builds from a provider account. */
  function MapAccount(a: Provider.Account, institution: string, itemId: string): (m: PlaidAccount)
    ensures m.id == a.accountId && m.name == a.name && m.accountType == a.accountType
    ensures m.institution == institution && m.itemId == Some(itemId)
    ensures m.balance == Some(AccountBalance(a.balances.available, a.balances.current, a.balances.limit,
                                             a.balances.isoCurrencyCode))
  {
    PlaidAccount(a.accountId, a.name, a.mask, a.accountType, a.subtype, institution, Some(itemId),
      Some(AccountBalance(a.balances.available, a.balances.current, a.balances.limit, a.balances.isoCurrencyCode)))
  }

  function MapAccounts(accounts: seq<Provider.Account>, institution: string, itemId: string): (r: seq<PlaidAccount>)
    ensures |r| == |accounts|
    ensures forall i :: 0 <= i < |r| ==> r[i] == MapAccount(accounts[i], institution, itemId)
  {
    seq(|accounts|, i requires 0 <= i < |accounts| => MapAccount(accounts[i], institution, itemId))
  }

  /** One item's share: accounts first, then the institution lookups. */
  function ItemAccounts(client: Provider.Client, item: ItemRow): Result<seq<PlaidAccount>>
  {
    var accounts :- client.accountsGet(item.accessToken);
    var institution :- Provider.InstitutionName(client, item.accessToken);
    Ok(MapAccounts(accounts, institution, item.itemId))
  }

  /** The whole request; `session` is the signed-in user's id. */
  function GetAccounts(session: Option<string>, rows: seq<ItemRow>, queryError: Option<string>,
                       client: Provider.Client): (r: Response<seq<PlaidAccount>>)
    ensures session.None? ==> r == Response(401, Error(NotAuthenticated))
    ensures session.Some? && queryError.Some? ==> r == Response(500, Error(queryError.value))
    ensures r.status == 200 || r.body.Error?
  {
    if session.None? then Response(401, Error(NotAuthenticated))
    else match SelectActive(rows, session.value, queryError)
      case Err(e) => Response(500, Error(e))
      case Ok(items) =>
        if |items| == 0 then Response(200, Data([]))
        else match All(items, (item: ItemRow) => ItemAccounts(client, item))
          case Err(e) => Response(500, Error(e))
          case Ok(lists) => Response(200, Data(Flatten(lists)))
  }

  /** With no active item the body is an empty list and no provider call
      matters: any two clients give the same response. */
  lemma ZeroItemsShortCircuit(userId: string, rows: seq<ItemRow>, c1: Provider.Client, c2: Provider.Client)
    requires ActiveItems(rows, userId) == []
    ensures GetAccounts(Some(userId), rows, None, c1) == Response(200, Data([]))
    ensures GetAccounts(Some(userId), rows, None, c1) == GetAccounts(Some(userId), rows, None, c2)
  {
  }

  /** An account carries the item it came from and that item's institution. */
  predicate TaggedWith(a: PlaidAccount, client: Provider.Client, item: ItemRow)
  {
    a.itemId == Some(item.itemId) && Ok(a.institution) == Provider.InstitutionName(client, item.accessToken)
  }

  /** When every item succeeds, the body is the per-item mapped lists
      concatenated in item order, as many accounts as the provider listed. */
  lemma FanOutComplete(userId: string, rows: seq<ItemRow>, client: Provider.Client)
    requires var items := ActiveItems(rows, userId);
      forall i :: 0 <= i < |items| ==> ItemAccounts(client, items[i]).Ok?
    ensures var items := ActiveItems(rows, userId);
      var r := GetAccounts(Some(userId), rows, None, client);
      && r.status == 200 && r.body.Data?
      && r.body.data == Flatten(seq(|items|, i requires 0 <= i < |items| => ItemAccounts(client, items[i]).value))
      && |r.body.data| == TotalLength(seq(|items|, i requires 0 <= i < |items| => client.accountsGet(items[i].accessToken).value))
  {
    var items := ActiveItems(rows, userId);
    var lists := seq(|items|, i requires 0 <= i < |items| => ItemAccounts(client, items[i]).value);
    var raw := seq(|items|, i requires 0 <= i < |items| => client.accountsGet(items[i].accessToken).value);
    if |items| > 0 {
      assert All(items, (item: ItemRow) => ItemAccounts(client, item)).value == lists;
    }
    MappedLengths(lists, raw);
    FlattenLength(lists);
  }

  /** Then each account of the body is tagged with its own item and that
      item's institution. */
  lemma FanOutTagged(userId: string, rows: seq<ItemRow>, client: Provider.Client)
    requires var items := ActiveItems(rows, userId);
      forall i :: 0 <= i < |items| ==> ItemAccounts(client, items[i]).Ok?
    ensures var items := ActiveItems(rows, userId);
      var r := GetAccounts(Some(userId), rows, None, client);
      r.body.Data? && forall a :: a in r.body.data ==> exists i :: 0 <= i < |items| && TaggedWith(a, client, items[i])
  {
    FanOutComplete(userId, rows, client);
    var items := ActiveItems(rows, userId);
    var lists := seq(|items|, i requires 0 <= i < |items| => ItemAccounts(client, items[i]).value);
    forall a: PlaidAccount | a in Flatten(lists)
      ensures exists i :: 0 <= i < |items| && TaggedWith(a, client, items[i])
    {
      FlattenMember(lists, a);
      var i :| 0 <= i < |lists| && a in lists[i];
      ItemTagged(client, items[i], a);
    }
  }

  lemma ItemTagged(client: Provider.Client, item: ItemRow, a: PlaidAccount)
    requires ItemAccounts(client, item).Ok? && a in ItemAccounts(client, item).value
    ensures TaggedWith(a, client, item)
  {
    var k :| 0 <= k < |ItemAccounts(client, item).value| && ItemAccounts(client, item).value[k] == a;
  }

  lemma {:induction false} MappedLengths(lists: seq<seq<PlaidAccount>>, raw: seq<seq<Provider.Account>>)
    requires |lists| == |raw|
    requires forall i :: 0 <= i < |lists| ==> |lists[i]| == |raw[i]|
    ensures TotalLength(lists) == TotalLength(raw)
  {
    if |lists| > 0 {
      MappedLengths(lists[..|lists| - 1], raw[..|raw| - 1]);
    }
  }

  /** No per-item isolation: one failing item fails the whole request with
      the first failing item's message. */
  lemma ItemFailureFailsRequest(userId: string, rows: seq<ItemRow>, client: Provider.Client, i: int)
    requires 0 <= i < |ActiveItems(rows, userId)|
    requires ItemAccounts(client, ActiveItems(rows, userId)[i]).Err?
    ensures var r := GetAccounts(Some(userId), rows, None, client);
      r.status == 500 && r.body.Error?
      && exists j :: 0 <= j < |ActiveItems(rows, userId)|
           && ItemAccounts(client, ActiveItems(rows, userId)[j]) == Err(r.body.error)
  {
  }
}

/** The token-exchange edge function: trades a public token for an access
    token, records the new item as active for the signed-in user, then
    returns the item's accounts tagged with its institution. The row is
    written before the lookups, so a later failure leaves it in place. */
module ExchangeToken {
  import opened Common
  import opened PlaidTypes
  import Provider
  import opened ItemStore

  const MissingPublicToken: string := "missing_public_token"

  /** An account as this endpoint returns it: no item id and no currency. */
  function LinkedAccount(a: Provider.Account, institution: string): (p: PlaidAccount)
    ensures p.id == a.accountId && p.name == a.name && p.institution == institution
    ensures p.itemId.None?
    ensures p.balance == Some(AccountBalance(a.balances.available, a.balances.current, a.balances.limit, None))
  {
    PlaidAccount(a.accountId, a.name, a.mask, a.accountType, a.subtype, institution, None,
                 Some(AccountBalance(a.balances.available, a.balances.current, a.balances.limit, None)))
  }

  /** The lookups after the insert: institution, then accounts. */
  function LinkedAccounts(client: Provider.Client, accessToken: string): (r: Result<seq<PlaidAccount>>)
    ensures r.Ok? ==>
      && client.accountsGet(accessToken).Ok? && Provider.InstitutionName(client, accessToken).Ok?
      && |r.value| == |client.accountsGet(accessToken).value|
      && forall k :: 0 <= k < |r.value| ==>
           r.value[k] == LinkedAccount(client.accountsGet(accessToken).value[k],
                                       Provider.InstitutionName(client, accessToken).value)
  {
    var institution :- Provider.InstitutionName(client, accessToken);
    var accounts :- client.accountsGet(accessToken);
    Ok(seq(|accounts|, k requires 0 <= k < |accounts| => LinkedAccount(accounts[k], institution)))
  }

  /** The whole request. `session` is the signed-in user's id, `publicToken`
      the body's field, and `insertFailure` the store's error if it refuses
      the row. */
  method Exchange(table: ItemsTable, session: Option<string>, publicToken: Option<string>,
                  client: Provider.Client, insertFailure: Option<string>)
    returns (r: Response<seq<PlaidAccount>>)
    modifies table
    ensures session.None? ==> r == Response(401, Error(NotAuthenticated)) && table.rows == old(table.rows)
    ensures session.Some? && !Truthy(publicToken) ==>
      r == Response(400, Error(MissingPublicToken)) && table.rows == old(table.rows)
    ensures session.Some? && Truthy(publicToken) ==>
      var exchanged := client.itemPublicTokenExchange(publicToken.value);
      && (exchanged.Err? ==> r == Response(500, Error(exchanged.error)) && table.rows == old(table.rows))
      && (exchanged.Ok? && insertFailure.Some? ==>
            r == Response(500, Error(insertFailure.value)) && table.rows == old(table.rows))
      && (exchanged.Ok? && insertFailure.None? ==>
            table.rows == old(table.rows) + [ItemRow(session.value, exchanged.value.itemId,
                                                     exchanged.value.accessToken, Active)]
            && r == match LinkedAccounts(client, exchanged.value.accessToken)
                    case Ok(accounts) => Response(200, Data(accounts))
                    case Err(e) => Response(500, Error(e)))
  {
    if session.None? {
      return Response(401, Error(NotAuthenticated));
    }
    if !Truthy(publicToken) {
      return Response(400, Error(MissingPublicToken));
    }
    var exchanged := client.itemPublicTokenExchange(publicToken.value);
    if exchanged.Err? {
      return Response(500, Error(exchanged.error));
    }
    var token := exchanged.value;
    var error := table.Insert(ItemRow(session.value, token.itemId, token.accessToken, Active), insertFailure);
    if error.Some? {
      return Response(500, Error(error.value));
    }
    var linked := LinkedAccounts(client, token.accessToken);
    if linked.Err? {
      return Response(500, Error(linked.error));
    }
    r := Response(200, Data(linked.value));
  }
}

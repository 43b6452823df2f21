/** The banking-data provider (Plaid) as the edge functions see it: the
    response records they read and the client calls they make. Each call
    is a total function of its arguments that may fail; the network,
    credentials and configuration behind it are not modelled. */
module Provider {
  import opened Common

  datatype Balances = Balances(
    available: Option<int>,
    current: Option<int>,
    limit: Option<int>,
    isoCurrencyCode: Option<string>)

  datatype Account = Account(
    accountId: string,
    name: string,
    mask: Option<string>,
    accountType: string,
    subtype: Option<string>,
    balances: Balances)

  datatype Transaction = Transaction(
    transactionId: string,
    accountId: string,
    date: string,
    name: string,
    merchantName: Option<string>,
    amount: int,
    isoCurrencyCode: Option<string>,
    category: Option<seq<string>>,
    categoryId: Option<string>,
    pending: bool)

  datatype Holding = Holding(
    accountId: string,
    securityId: Option<string>,
    institutionValue: Option<int>,
    quantity: int)

  datatype Security = Security(
    securityId: string,
    name: Option<string>,
    tickerSymbol: Option<string>,
    securityType: Option<string>)

  datatype InvestmentTransaction = InvestmentTransaction(
    investmentTransactionId: string,
    accountId: string,
    date: string,
    amount: int)

  datatype HoldingsResponse = HoldingsResponse(
    accounts: seq<Account>,
    holdings: seq<Holding>,
    securities: seq<Security>)

  /** One credit, mortgage or student-loan record; only the account it
      belongs to is read, the rest is carried through unread. */
  datatype Liability = Liability(accountId: Option<string>, details: string)

  /** The provider's `liabilities` object: a category may be absent. */
  datatype Liabilities = Liabilities(
    credit: Option<seq<Liability>>,
    mortgage: Option<seq<Liability>>,
    student: Option<seq<Liability>>)

  datatype LiabilitiesResponse = LiabilitiesResponse(
    accounts: seq<Account>,
    liabilities: Liabilities)

  datatype TokenExchange = TokenExchange(accessToken: string, itemId: string)

  /** The provider client: one field per call the core makes. */
  datatype Client = Client(
    itemGet: string -> Result<Option<string>>,
    institutionsGetById: string -> Result<string>,
    accountsGet: string -> Result<seq<Account>>,
    accountsBalanceGet: string -> Result<seq<Account>>,
    transactionsGet: (string, string, string) -> Result<seq<Transaction>>,
    investmentsHoldingsGet: string -> Result<HoldingsResponse>,
    investmentsTransactionsGet: (string, string, string) -> Result<seq<InvestmentTransaction>>,
    liabilitiesGet: string -> Result<LiabilitiesResponse>,
    itemPublicTokenExchange: string -> Result<TokenExchange>)

  const UnknownInstitution: string := "Unknown Institution"

  /** The display name of the institution behind an access token: the item
      lookup, then the institution lookup when the item names one. */
  function InstitutionName(client: Client, accessToken: string): (r: Result<string>)
    ensures client.itemGet(accessToken).Err? ==> r.Err?
    ensures client.itemGet(accessToken).Ok? && !Truthy(client.itemGet(accessToken).value)
            ==> r == Ok(UnknownInstitution)
    ensures client.itemGet(accessToken).Ok? && Truthy(client.itemGet(accessToken).value)
            ==> r == client.institutionsGetById(client.itemGet(accessToken).value.value)
  {
    var institutionId :- client.itemGet(accessToken);
    if Truthy(institutionId) then client.institutionsGetById(institutionId.value)
    else Ok(UnknownInstitution)
  }
}

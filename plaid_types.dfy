/** The records exchanged between the edge functions, the data hook and the
    client cache (the interfaces of the cache context), and the HTTP
    envelope of an edge-function response. Amounts are integers in cents. */
module PlaidTypes {
  import opened Common
  import Provider

  /** Milliseconds since the epoch; `new Date()` is always passed in. */
  type Timestamp = int

  datatype AccountBalance = AccountBalance(
    available: Option<int>,
    current: Option<int>,
    limit: Option<int>,
    currency: Option<string>)

  /** An account as the accounts endpoint returns it and the cache holds it. */
  datatype PlaidAccount = PlaidAccount(
    id: string,
    name: string,
    mask: Option<string>,
    accountType: string,
    subtype: Option<string>,
    institution: string,
    itemId: Option<string>,
    balance: Option<AccountBalance>)

  /** The account summary attached to each transaction. */
  datatype AccountRef = AccountRef(
    name: string,
    mask: Option<string>,
    accountType: Option<string>,
    subtype: Option<string>)

  datatype PlaidTransaction = PlaidTransaction(
    id: string,
    accountId: string,
    account: AccountRef,
    date: string,
    description: string,
    merchantName: Option<string>,
    amount: int,
    currency: Option<string>,
    category: Option<seq<string>>,
    categoryId: Option<string>,
    pending: bool,
    institution: string,
    itemId: string)

  /** A provider account spread into a new object with two tags added. */
  datatype TaggedAccount = TaggedAccount(account: Provider.Account, institution: string, itemId: string)

  /** A holding with its tags and the security details joined in. */
  datatype HoldingDetail = HoldingDetail(
    holding: Provider.Holding,
    institution: string,
    itemId: string,
    securityName: string,
    tickerSymbol: Option<string>,
    securityType: Option<string>)

  datatype TaggedInvestmentTransaction = TaggedInvestmentTransaction(
    transaction: Provider.InvestmentTransaction,
    institution: string,
    itemId: string)

  datatype InvestmentBundle = InvestmentBundle(
    accounts: seq<TaggedAccount>,
    holdings: seq<HoldingDetail>,
    securities: seq<Provider.Security>,
    investmentTransactions: seq<TaggedInvestmentTransaction>)

  const EmptyInvestments: InvestmentBundle := InvestmentBundle([], [], [], [])

  /** The investments endpoint's body: the four lists, or `{investments: []}`
      when the user has no active item. */
  datatype InvestmentsBody = Investments(bundle: InvestmentBundle) | NoInvestmentItems

  /** A liability record with its tags and its account's details joined in. */
  datatype LiabilityDetail = LiabilityDetail(
    record: Provider.Liability,
    institution: string,
    itemId: string,
    accountName: string,
    accountMask: Option<string>,
    balances: Option<Provider.Balances>)

  datatype LiabilityBundle = LiabilityBundle(
    accounts: seq<TaggedAccount>,
    credit: seq<LiabilityDetail>,
    mortgage: seq<LiabilityDetail>,
    student: seq<LiabilityDetail>)

  const EmptyLiabilities: LiabilityBundle := LiabilityBundle([], [], [], [])

  /** The liabilities endpoint's body: the four lists, or `{liabilities: []}`
      when the user has no active item. */
  datatype LiabilitiesBody = Liabilities(bundle: LiabilityBundle) | NoLiabilityItems

  datatype FinancialSummary = FinancialSummary(
    totalAssets: int,
    totalLiabilities: int,
    netWorth: int,
    monthlyIncome: int,
    monthlyExpenses: int,
    monthlySavings: int,
    lastUpdated: Option<Timestamp>)

  /** A JSON body: the payload, or `{error: message}`. */
  datatype Body<+T> = Data(data: T) | Error(error: string)

  datatype Response<+T> = Response(status: int, body: Body<T>)

  const NotAuthenticated: string := "not_authenticated"
}

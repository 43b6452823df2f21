/** The client data hook: one fetcher per edge function, each writing its
    result into the cache context and falling back to an empty value when
    the call fails, the three accumulators that derive the financial
    summary, and the pass that fetches everything and stores that summary.
    The outcome of each `functions.invoke` call is a parameter, and so are
    the clock readings. */
module UsePlaidApi {
  import opened Common
  import opened PlaidTypes
  import opened PlaidContext

  // ---------------------------------------------------------------------
  // The summary figures
  // ---------------------------------------------------------------------

  predicate IsCredit(a: PlaidAccount)
  {
    a.accountType == "credit"
  }

  /** `balance?.current`, absent counted as 0. */
  function Current(a: PlaidAccount): int
  {
    if a.balance.Some? then OrZero(a.balance.value.current) else 0
  }

  /** What one account adds to the assets: its current balance unless it is
      a credit account. */
  function AccountAsset(a: PlaidAccount): int
  {
    if IsCredit(a) then 0 else Current(a)
  }

  function HoldingValue(h: HoldingDetail): int
  {
    OrZero(h.holding.institutionValue)
  }

  /** The holdings of an investments body; the zero-item body has none. */
  function Holdings(body: InvestmentsBody): seq<HoldingDetail>
  {
    if body.Investments? then body.bundle.holdings else []
  }

  function TotalAssets(accounts: seq<PlaidAccount>, investments: InvestmentsBody): int
  {
    Sum(accounts, AccountAsset) + Sum(Holdings(investments), HoldingValue)
  }

  /** `calculateTotalAssets`: the two accumulator loops. */
  method CalculateTotalAssets(accounts: seq<PlaidAccount>, investments: InvestmentsBody) returns (total: int)
    ensures total == TotalAssets(accounts, investments)
  {
    total := 0;
    for i := 0 to |accounts|
      invariant total == Sum(accounts[..i], AccountAsset)
    {
      assert accounts[..i + 1][..i] == accounts[..i];
      var a := accounts[i];
      if a.accountType != "credit" && a.balance.Some? && a.balance.value.current.Some?
         && a.balance.value.current.value != 0 {
        total := total + a.balance.value.current.value;
      }
    }
    assert accounts[..|accounts|] == accounts;
    var sub := total;
    if investments.Investments? {
      var holdings := investments.bundle.holdings;
      for i := 0 to |holdings|
        invariant total == sub + Sum(holdings[..i], HoldingValue)
      {
        assert holdings[..i + 1][..i] == holdings[..i];
        var h := holdings[i];
        if h.holding.institutionValue.Some? && h.holding.institutionValue.value != 0 {
          total := total + h.holding.institutionValue.value;
        }
      }
      assert holdings[..|holdings|] == holdings;
    }
  }

  /** The assets are the current balances of the non-credit accounts (loan
      and every other type included) plus the holdings' institution values. */
  lemma AssetsAreNonCreditBalances(accounts: seq<PlaidAccount>, investments: InvestmentsBody)
    ensures TotalAssets(accounts, investments)
            == Sum(Filter(accounts, (a: PlaidAccount) => !IsCredit(a)), Current)
               + Sum(Holdings(investments), HoldingValue)
  {
    SumFilter(accounts, (a: PlaidAccount) => !IsCredit(a), Current, AccountAsset);
  }

  /** Adding a credit account leaves the assets unchanged. */
  lemma CreditAccountAddsNothing(accounts: seq<PlaidAccount>, a: PlaidAccount, investments: InvestmentsBody)
    requires IsCredit(a)
    ensures TotalAssets(accounts + [a], investments) == TotalAssets(accounts, investments)
  {
    SumAppend(accounts, [a], AccountAsset);
    assert Sum([a], AccountAsset) == Sum([a][..0], AccountAsset) + AccountAsset(a);
  }

  /** What one liability record owes: the magnitude of its current balance. */
  function Owed(d: LiabilityDetail): int
  {
    if d.balances.Some? then Abs(OrZero(d.balances.value.current)) else 0
  }

  function TotalLiabilities(body: LiabilitiesBody): int
  {
    if body.Liabilities? then
      Sum(body.bundle.credit, Owed) + Sum(body.bundle.mortgage, Owed) + Sum(body.bundle.student, Owed)
    else 0
  }

  /** Σ Owed over one category, as one of the loops of `calculateTotalLiabilities`. */
  method SumOwed(ds: seq<LiabilityDetail>) returns (total: int)
    ensures total == Sum(ds, Owed)
  {
    total := 0;
    for i := 0 to |ds|
      invariant total == Sum(ds[..i], Owed)
    {
      assert ds[..i + 1][..i] == ds[..i];
      var d := ds[i];
      if d.balances.Some? && d.balances.value.current.Some? && d.balances.value.current.value != 0 {
        total := total + Abs(d.balances.value.current.value);
      }
    }
    assert ds[..|ds|] == ds;
  }

  /** `calculateTotalLiabilities`: credit, mortgage and student in turn. */
  method CalculateTotalLiabilities(body: LiabilitiesBody) returns (total: int)
    ensures total == TotalLiabilities(body)
  {
    total := 0;
    if body.Liabilities? {
      var credit := SumOwed(body.bundle.credit);
      var mortgage := SumOwed(body.bundle.mortgage);
      var student := SumOwed(body.bundle.student);
      total := credit + mortgage + student;
    }
  }

  /** The liabilities are never negative, whatever the signs of the balances. */
  lemma LiabilitiesNonNegative(body: LiabilitiesBody)
    ensures TotalLiabilities(body) >= 0
  {
    if body.Liabilities? {
      SumNonNegative(body.bundle.credit, Owed);
      SumNonNegative(body.bundle.mortgage, Owed);
      SumNonNegative(body.bundle.student, Owed);
    }
  }

  /** A deposit (a negative provider amount) is income of its magnitude. */
  function IncomeOf(t: PlaidTransaction): int
  {
    if t.amount < 0 then -t.amount else 0
  }

  function ExpenseOf(t: PlaidTransaction): int
  {
    if t.amount < 0 then 0 else t.amount
  }

  function Amount(t: PlaidTransaction): int
  {
    t.amount
  }

  /** `calculateMonthlyFlow`: one loop putting each amount in one bucket. */
  method CalculateMonthlyFlow(ts: seq<PlaidTransaction>) returns (income: int, expenses: int)
    ensures income == Sum(ts, IncomeOf) && expenses == Sum(ts, ExpenseOf)
  {
    income, expenses := 0, 0;
    for i := 0 to |ts|
      invariant income == Sum(ts[..i], IncomeOf) && expenses == Sum(ts[..i], ExpenseOf)
    {
      assert ts[..i + 1][..i] == ts[..i];
      var amount := ts[i].amount;
      if amount < 0 {
        income := income + Abs(amount);
      } else {
        expenses := expenses + amount;
      }
    }
    assert ts[..|ts|] == ts;
  }

  /** Both buckets are non-negative and together they account for every
      amount: income minus expenses is the negated sum of the amounts. */
  lemma {:induction false} FlowBuckets(ts: seq<PlaidTransaction>)
    ensures Sum(ts, IncomeOf) >= 0 && Sum(ts, ExpenseOf) >= 0
    ensures Sum(ts, IncomeOf) - Sum(ts, ExpenseOf) == -Sum(ts, Amount)
  {
    if |ts| > 0 {
      FlowBuckets(ts[..|ts| - 1]);
    }
  }

  /** The six figures; the stored copy adds the instant, the returned copy
      has none. */
  function Summarize(accounts: seq<PlaidAccount>, transactions: seq<PlaidTransaction>,
                     investments: InvestmentsBody, liabilities: LiabilitiesBody): (s: FinancialSummary)
    ensures s.netWorth == s.totalAssets - s.totalLiabilities
    ensures s.monthlySavings == s.monthlyIncome - s.monthlyExpenses
    ensures s.totalLiabilities >= 0 && s.monthlyIncome >= 0 && s.monthlyExpenses >= 0
    ensures s.monthlySavings == -Sum(transactions, Amount)
    ensures s.lastUpdated.None?
  {
    LiabilitiesNonNegative(liabilities);
    FlowBuckets(transactions);
    var assets := TotalAssets(accounts, investments);
    var owed := TotalLiabilities(liabilities);
    var income := Sum(transactions, IncomeOf);
    var expenses := Sum(transactions, ExpenseOf);
    FinancialSummary(assets, owed, assets - owed, income, expenses, income - expenses, None)
  }

  /** With no linked item every endpoint returns its empty body and every
      figure is zero; the same holds when every fetch failed. */
  lemma NothingLinkedGivesZeros()
    ensures Summarize([], [], NoInvestmentItems, NoLiabilityItems) == FinancialSummary(0, 0, 0, 0, 0, 0, None)
    ensures Summarize([], [], Investments(EmptyInvestments), Liabilities(EmptyLiabilities))
            == FinancialSummary(0, 0, 0, 0, 0, 0, None)
  {
  }

  /** A checking account of 1000 and a credit account of -200 whose
      liability record carries the same balance: net worth 800. */
  lemma CheckingAndCardScenario(checking: PlaidAccount, card: PlaidAccount, record: LiabilityDetail)
    requires checking.accountType == "checking" && checking.balance.Some?
             && checking.balance.value.current == Some(1000)
    requires card.accountType == "credit" && card.balance.Some? && card.balance.value.current == Some(-200)
    requires record.balances.Some? && record.balances.value.current == Some(-200)
    ensures var s := Summarize([checking, card], [], NoInvestmentItems,
                               Liabilities(LiabilityBundle([], [record], [], [])));
      s.totalAssets == 1000 && s.totalLiabilities == 200 && s.netWorth == 800
  {
    assert Sum([checking], AccountAsset) == 1000 by {
      assert [checking][..0] == [];
    }
    assert Sum([checking, card], AccountAsset) == 1000 by {
      assert [checking, card][..1] == [checking];
    }
    assert Sum([record], Owed) == 200 by {
      assert [record][..0] == [];
    }
  }

  /** A deposit of 500 and a purchase of 120: savings 380. */
  lemma DepositAndPurchaseScenario(deposit: PlaidTransaction, purchase: PlaidTransaction)
    requires deposit.amount == -500 && purchase.amount == 120
    ensures var s := Summarize([], [deposit, purchase], NoInvestmentItems, NoLiabilityItems);
      s.monthlyIncome == 500 && s.monthlyExpenses == 120 && s.monthlySavings == 380
  {
    assert Sum([deposit], IncomeOf) == 500 && Sum([deposit], ExpenseOf) == 0 by {
      assert [deposit][..0] == [];
    }
    assert [deposit, purchase][..1] == [deposit];
  }

  // ---------------------------------------------------------------------
  // The zero-item bodies
  // ---------------------------------------------------------------------

  /** Evaluating the investments persistence effect on the value the hook
      passes as written, which is the raw body: on `{investments: []}` the
      effect reads `.length` of a missing `accounts` list and throws. */
  function InvestmentsEffectAsWritten(c: Cache, body: InvestmentsBody, codec: Codec): (r: Result<Cache>)
    ensures body.NoInvestmentItems? <==> r.Err?
    ensures body.Investments? ==> r == Ok(WithInvestments(c, body.bundle, codec))
  {
    match body
    case NoInvestmentItems => Err(UndefinedLength)
    case Investments(b) => Ok(WithInvestments(c, b, codec))
  }

  const UndefinedLength: string := "TypeError: Cannot read properties of undefined (reading 'length')"

  /** A user without linked items who fetches investments crashes the effect. */
  lemma ZeroItemInvestmentsThrow(c: Cache, codec: Codec)
    ensures InvestmentsEffectAsWritten(c, NoInvestmentItems, codec) == Err(UndefinedLength)
  {
  }

  /** The value the hook stores: the zero-item body as the four empty lists. */
  function NormalizeInvestments(body: InvestmentsBody): (b: InvestmentBundle)
    ensures body.Investments? ==> b == body.bundle
    ensures body.NoInvestmentItems? ==> b == EmptyInvestments
  {
    if body.Investments? then body.bundle else EmptyInvestments
  }

  /** Storing the normalized value never throws, and it has the same
      holdings, so the assets computed from the body are unchanged. */
  lemma NormalizedInvestmentsAreSafe(c: Cache, body: InvestmentsBody, codec: Codec)
    ensures InvestmentsEffectAsWritten(c, Investments(NormalizeInvestments(body)), codec).Ok?
    ensures Holdings(Investments(NormalizeInvestments(body))) == Holdings(body)
  {
  }

  function LiabilitiesEffectAsWritten(c: Cache, body: LiabilitiesBody, codec: Codec): (r: Result<Cache>)
    ensures body.NoLiabilityItems? <==> r.Err?
    ensures body.Liabilities? ==> r == Ok(WithLiabilities(c, body.bundle, codec))
  {
    match body
    case NoLiabilityItems => Err(UndefinedLength)
    case Liabilities(b) => Ok(WithLiabilities(c, b, codec))
  }

  lemma ZeroItemLiabilitiesThrow(c: Cache, codec: Codec)
    ensures LiabilitiesEffectAsWritten(c, NoLiabilityItems, codec) == Err(UndefinedLength)
  {
  }

  function NormalizeLiabilities(body: LiabilitiesBody): (b: LiabilityBundle)
    ensures body.Liabilities? ==> b == body.bundle
    ensures body.NoLiabilityItems? ==> b == EmptyLiabilities
  {
    if body.Liabilities? then body.bundle else EmptyLiabilities
  }

  lemma NormalizedLiabilitiesAreSafe(c: Cache, body: LiabilitiesBody, codec: Codec)
    ensures LiabilitiesEffectAsWritten(c, Liabilities(NormalizeLiabilities(body)), codec).Ok?
    ensures TotalLiabilities(Liabilities(NormalizeLiabilities(body))) == TotalLiabilities(body)
  {
  }

  // ---------------------------------------------------------------------
  // The fetchers
  // ---------------------------------------------------------------------

  const TransactionsFunction: string := "plaid-get-transactions"

  /** The function name, with the date query only when both dates are truthy. */
  function TransactionsUrl(startDate: Option<string>, endDate: Option<string>): (url: string)
    ensures !(Truthy(startDate) && Truthy(endDate)) ==> url == TransactionsFunction
    ensures Truthy(startDate) && Truthy(endDate) ==>
      url == TransactionsFunction + "?start_date=" + startDate.value + "&end_date=" + endDate.value
  {
    if Truthy(startDate) && Truthy(endDate)
    then TransactionsFunction + "?start_date=" + startDate.value + "&end_date=" + endDate.value
    else TransactionsFunction
  }

  /** The URL carries a query exactly when both dates were given, and then
      it carries both of them. */
  lemma TransactionsUrlQuery(startDate: Option<string>, endDate: Option<string>)
    ensures TransactionsUrl(startDate, endDate) != TransactionsFunction <==> Truthy(startDate) && Truthy(endDate)
    ensures Truthy(startDate) && Truthy(endDate) ==>
      var url := TransactionsUrl(startDate, endDate);
      url[..|TransactionsFunction|] == TransactionsFunction
      && url[|url| - |endDate.value|..] == endDate.value
  {
    if Truthy(startDate) && Truthy(endDate) {
      var url := TransactionsUrl(startDate, endDate);
      assert |url| > |TransactionsFunction|;
    }
  }

  /** A fetcher's return value: the body, or its empty default after a failure. */
  function Settle<T>(outcome: Result<T>, fallback: T): (v: T)
    ensures outcome.Ok? ==> v == outcome.value
    ensures outcome.Err? ==> v == fallback
  {
    if outcome.Ok? then outcome.value else fallback
  }

  /** The last-error value after a call settles. */
  function ErrorAfter<T>(e: Option<string>, outcome: Result<T>): (r: Option<string>)
    ensures outcome.Err? ==> r == Some(outcome.error)
    ensures outcome.Ok? ==> r == e
  {
    if outcome.Err? then Some(outcome.error) else e
  }

  const NoInvestments: InvestmentsBody := Investments(EmptyInvestments)
  const NoLiabilities: LiabilitiesBody := Liabilities(EmptyLiabilities)

  /** What each settled call does to the cache: nothing when it failed. */
  function AccountsSettled(c: Cache, outcome: Result<seq<PlaidAccount>>, now: Timestamp, codec: Codec): Cache
  {
    if outcome.Ok? then WithConnectedAccounts(c, outcome.value, now, codec) else c
  }

  function TransactionsSettled(c: Cache, outcome: Result<seq<PlaidTransaction>>, codec: Codec): Cache
  {
    if outcome.Ok? then WithTransactions(c, outcome.value, codec) else c
  }

  function InvestmentsSettled(c: Cache, outcome: Result<InvestmentsBody>, codec: Codec): Cache
  {
    if outcome.Ok? then WithInvestments(c, NormalizeInvestments(outcome.value), codec) else c
  }

  function LiabilitiesSettled(c: Cache, outcome: Result<LiabilitiesBody>, codec: Codec): Cache
  {
    if outcome.Ok? then WithLiabilities(c, NormalizeLiabilities(outcome.value), codec) else c
  }

  /** The four outcomes of one refresh pass. */
  datatype Outcomes = Outcomes(
    accounts: Result<seq<PlaidAccount>>,
    transactions: Result<seq<PlaidTransaction>>,
    investments: Result<InvestmentsBody>,
    liabilities: Result<LiabilitiesBody>)

  /** The summary a pass derives from what its four fetchers returned. */
  function PassSummary(o: Outcomes): FinancialSummary
  {
    Summarize(Settle(o.accounts, []), Settle(o.transactions, []), Settle(o.investments, NoInvestments),
              Settle(o.liabilities, NoLiabilities))
  }

  /** The cache after a pass: the four settled calls in order, then the
      summary stamped `now`. */
  function AfterPass(c: Cache, o: Outcomes, now: Timestamp, codec: Codec): Cache
  {
    WithFinancialData(AllSettled(c, o, now, codec), Some(PassSummary(o).(lastUpdated := Some(now))), codec)
  }

  /** The cache once the four calls have settled, in call order. */
  function AllSettled(c: Cache, o: Outcomes, now: Timestamp, codec: Codec): Cache
  {
    var c1 := AccountsSettled(c, o.accounts, now, codec);
    var c2 := TransactionsSettled(c1, o.transactions, codec);
    var c3 := InvestmentsSettled(c2, o.investments, codec);
    LiabilitiesSettled(c3, o.liabilities, codec)
  }

  /** A pass keeps the token, always stores a summary, and stamps the
      cache exactly when its accounts come back non-empty. */
  lemma AfterPassFrame(c: Cache, o: Outcomes, now: Timestamp, codec: Codec)
    ensures var d := AfterPass(c, o, now, codec);
      && d.accessToken == c.accessToken && d.financialData.Some?
      && d.lastUpdated == if o.accounts.Ok? && |o.accounts.value| > 0 then Some(now) else c.lastUpdated
  {
    var c1 := AccountsSettled(c, o.accounts, now, codec);
    assert c1.accessToken == c.accessToken;
    assert c1.lastUpdated == if o.accounts.Ok? && |o.accounts.value| > 0 then Some(now) else c.lastUpdated;
    var c2 := TransactionsSettled(c1, o.transactions, codec);
    var c3 := InvestmentsSettled(c2, o.investments, codec);
    var c4 := LiabilitiesSettled(c3, o.liabilities, codec);
    assert c4.accessToken == c1.accessToken && c4.lastUpdated == c1.lastUpdated;
  }

  /** The last failure of a pass, in settling order. */
  function PassError(o: Outcomes): Option<string>
  {
    ErrorAfter(ErrorAfter(ErrorAfter(ErrorAfter(None, o.accounts), o.transactions), o.investments),
               o.liabilities)
  }

  /** A failed category is summed as its empty default: a pass in which
      every call fails stores zeros, not the previous summary. */
  lemma FailedPassStoresZeros(c: Cache, o: Outcomes, now: Timestamp, codec: Codec)
    requires o.accounts.Err? && o.transactions.Err? && o.investments.Err? && o.liabilities.Err?
    ensures AfterPass(c, o, now, codec).financialData == Some(FinancialSummary(0, 0, 0, 0, 0, 0, Some(now)))
    ensures PassError(o) == Some(o.liabilities.error)
  {
    NothingLinkedGivesZeros();
  }

  /** What `fetchAllFinancialData` returns. */
  datatype AllData = AllData(
    accounts: seq<PlaidAccount>,
    transactions: seq<PlaidTransaction>,
    investments: InvestmentsBody,
    liabilities: LiabilitiesBody,
    financialSummary: FinancialSummary)

  /** The summary block of `fetchAllFinancialData`, from the four settled
      results. */
  method CalculateSummary(accounts: seq<PlaidAccount>, transactions: seq<PlaidTransaction>,
                          investments: InvestmentsBody, liabilities: LiabilitiesBody) returns (s: FinancialSummary)
    ensures s == Summarize(accounts, transactions, investments, liabilities)
  {
    var totalAssets := CalculateTotalAssets(accounts, investments);
    var totalLiabilities := CalculateTotalLiabilities(liabilities);
    var netWorth := totalAssets - totalLiabilities;
    var monthlyIncome, monthlyExpenses := CalculateMonthlyFlow(transactions);
    s := FinancialSummary(totalAssets, totalLiabilities, netWorth, monthlyIncome, monthlyExpenses,
                          monthlyIncome - monthlyExpenses, None);
  }

  /** The hook over one cache context. */
  class PlaidApiHook {
    var error: Option<string>
    const ctx: PlaidProvider

    constructor (context: PlaidProvider)
      ensures ctx == context && error.None?
    {
      ctx := context;
      error := None;
    }

    // The part of each fetcher after its call settles.

    method SettleAccounts(outcome: Result<seq<PlaidAccount>>, now: Timestamp) returns (r: seq<PlaidAccount>)
      modifies this, ctx
      ensures r == Settle(outcome, [])
      ensures error == ErrorAfter(old(error), outcome)
      ensures ctx.Snapshot() == AccountsSettled(old(ctx.Snapshot()), outcome, now, ctx.codec)
    {
      if outcome.Err? {
        error := Some(outcome.error);
        return [];
      }
      ctx.SetConnectedAccounts(outcome.value, now);
      r := outcome.value;
    }

    method SettleTransactions(outcome: Result<seq<PlaidTransaction>>) returns (r: seq<PlaidTransaction>)
      modifies this, ctx
      ensures r == Settle(outcome, [])
      ensures error == ErrorAfter(old(error), outcome)
      ensures ctx.Snapshot() == TransactionsSettled(old(ctx.Snapshot()), outcome, ctx.codec)
    {
      if outcome.Err? {
        error := Some(outcome.error);
        return [];
      }
      ctx.SetTransactions(outcome.value);
      r := outcome.value;
    }

    method SettleInvestments(outcome: Result<InvestmentsBody>) returns (r: InvestmentsBody)
      modifies this, ctx
      ensures r == Settle(outcome, NoInvestments)
      ensures error == ErrorAfter(old(error), outcome)
      ensures ctx.Snapshot() == InvestmentsSettled(old(ctx.Snapshot()), outcome, ctx.codec)
    {
      if outcome.Err? {
        error := Some(outcome.error);
        return NoInvestments;
      }
      ctx.SetInvestments(NormalizeInvestments(outcome.value));
      r := outcome.value;
    }

    method SettleLiabilities(outcome: Result<LiabilitiesBody>) returns (r: LiabilitiesBody)
      modifies this, ctx
      ensures r == Settle(outcome, NoLiabilities)
      ensures error == ErrorAfter(old(error), outcome)
      ensures ctx.Snapshot() == LiabilitiesSettled(old(ctx.Snapshot()), outcome, ctx.codec)
    {
      if outcome.Err? {
        error := Some(outcome.error);
        return NoLiabilities;
      }
      ctx.SetLiabilities(NormalizeLiabilities(outcome.value));
      r := outcome.value;
    }

    // The fetchers: each clears the error, calls its function and settles.

    method GetAccounts(outcome: Result<seq<PlaidAccount>>, now: Timestamp) returns (r: seq<PlaidAccount>)
      modifies this, ctx
      ensures r == Settle(outcome, [])
      ensures error == ErrorAfter(None, outcome)
      ensures ctx.Snapshot() == AccountsSettled(old(ctx.Snapshot()), outcome, now, ctx.codec)
    {
      error := None;
      r := SettleAccounts(outcome, now);
    }

    /** `invoke` answers a URL with that call's outcome. */
    method GetTransactions(startDate: Option<string>, endDate: Option<string>,
                           invoke: string -> Result<seq<PlaidTransaction>>) returns (r: seq<PlaidTransaction>)
      modifies this, ctx
      ensures r == Settle(invoke(TransactionsUrl(startDate, endDate)), [])
      ensures error == ErrorAfter(None, invoke(TransactionsUrl(startDate, endDate)))
      ensures ctx.Snapshot()
              == TransactionsSettled(old(ctx.Snapshot()), invoke(TransactionsUrl(startDate, endDate)), ctx.codec)
    {
      error := None;
      var url := TransactionsFunction;
      if Truthy(startDate) && Truthy(endDate) {
        url := url + "?start_date=" + startDate.value + "&end_date=" + endDate.value;
      }
      r := SettleTransactions(invoke(url));
    }

    method GetInvestments(outcome: Result<InvestmentsBody>) returns (r: InvestmentsBody)
      modifies this, ctx
      ensures r == Settle(outcome, NoInvestments)
      ensures error == ErrorAfter(None, outcome)
      ensures ctx.Snapshot() == InvestmentsSettled(old(ctx.Snapshot()), outcome, ctx.codec)
    {
      error := None;
      r := SettleInvestments(outcome);
    }

    method GetLiabilities(outcome: Result<LiabilitiesBody>) returns (r: LiabilitiesBody)
      modifies this, ctx
      ensures r == Settle(outcome, NoLiabilities)
      ensures error == ErrorAfter(None, outcome)
      ensures ctx.Snapshot() == LiabilitiesSettled(old(ctx.Snapshot()), outcome, ctx.codec)
    {
      error := None;
      r := SettleLiabilities(outcome);
    }

    /** The `Promise.all` of a pass: every fetcher clears the error before
        any call settles, and the calls settle in call order. */
    method AwaitAll(o: Outcomes, now: Timestamp)
      returns (accounts: seq<PlaidAccount>, transactions: seq<PlaidTransaction>,
               investments: InvestmentsBody, liabilities: LiabilitiesBody)
      modifies this, ctx
      ensures accounts == Settle(o.accounts, []) && transactions == Settle(o.transactions, [])
      ensures investments == Settle(o.investments, NoInvestments)
      ensures liabilities == Settle(o.liabilities, NoLiabilities)
      ensures error == PassError(o)
      ensures ctx.Snapshot() == AllSettled(old(ctx.Snapshot()), o, now, ctx.codec)
    {
      error := None;
      accounts := SettleAccounts(o.accounts, now);
      transactions := SettleTransactions(o.transactions);
      investments := SettleInvestments(o.investments);
      liabilities := SettleLiabilities(o.liabilities);
    }

    /** `fetchAllFinancialData`. The four fetchers start together, so all
        four clear the error before any settles; they settle in call order.
        The transactions call always carries the window from `monthAgo` to
        `today`. */
    method FetchAll(today: string, monthAgo: string, accountsOutcome: Result<seq<PlaidAccount>>,
                    invokeTransactions: string -> Result<seq<PlaidTransaction>>,
                    investmentsOutcome: Result<InvestmentsBody>, liabilitiesOutcome: Result<LiabilitiesBody>,
                    now: Timestamp) returns (r: AllData)
      modifies this, ctx
      ensures var o := Outcomes(accountsOutcome, invokeTransactions(TransactionsUrl(Some(monthAgo), Some(today))),
                                investmentsOutcome, liabilitiesOutcome);
        && r == AllData(Settle(o.accounts, []), Settle(o.transactions, []), Settle(o.investments, NoInvestments),
                        Settle(o.liabilities, NoLiabilities), PassSummary(o))
        && error == PassError(o)
        && ctx.Snapshot() == AfterPass(old(ctx.Snapshot()), o, now, ctx.codec)
        && ctx.financialData == Some(r.financialSummary.(lastUpdated := Some(now)))
    {
      var o := Outcomes(accountsOutcome, invokeTransactions(TransactionsUrl(Some(monthAgo), Some(today))),
                        investmentsOutcome, liabilitiesOutcome);
      var accounts, transactions, investments, liabilities := AwaitAll(o, now);
      var summary := CalculateSummary(accounts, transactions, investments, liabilities);
      ctx.SetFinancialData(Some(summary.(lastUpdated := Some(now))));
      r := AllData(accounts, transactions, investments, liabilities, summary);
    }

    /** `exchangePublicToken`: on success the returned accounts are appended
        to the connected ones, the token flag is set and a full pass runs. */
    method ExchangePublicToken(outcome: Result<seq<PlaidAccount>>, linkedAt: Timestamp,
                               today: string, monthAgo: string, pass: Outcomes, now: Timestamp)
      returns (r: Option<seq<PlaidAccount>>)
      modifies this, ctx
      ensures outcome.Err? ==> r.None? && error == Some(outcome.error) && ctx.Snapshot() == old(ctx.Snapshot())
      ensures outcome.Ok? ==> r == Some(outcome.value) && error == PassError(pass)
      ensures outcome.Ok? ==>
        var linked := WithAccessToken(
          WithConnectedAccounts(old(ctx.Snapshot()), old(ctx.connectedAccounts) + outcome.value, linkedAt,
                                ctx.codec), Some(ConnectedFlag));
        ctx.Snapshot() == AfterPass(linked, pass, now, ctx.codec)
    {
      error := None;
      if outcome.Err? {
        error := Some(outcome.error);
        return None;
      }
      ctx.SetConnectedAccounts(ctx.connectedAccounts + outcome.value, linkedAt);
      ctx.SetAccessToken(Some(ConnectedFlag));
      var _ := FetchAll(today, monthAgo, pass.accounts, (url: string) => pass.transactions,
                        pass.investments, pass.liabilities, now);
      r := Some(outcome.value);
    }
  }

  /** The token flag the exchange sets; the real token stays on the server. */
  const ConnectedFlag: string := "connected"
}

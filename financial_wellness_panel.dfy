/** The financial wellness panel: when it asks for a refresh, the asset and
    liability shares of the overview bar, the connected accounts grouped by
    type, and the header totals of the Investments and Credit & Loans
    sections and of the cash-flow card. */
module FinancialWellnessPanel {
  import opened Common
  import opened PlaidTypes
  import opened PlaidContext
  import opened UsePlaidApi

  /** The mount effect's condition for calling `fetchAllFinancialData`. */
  predicate ShouldFetch(c: Cache)
  {
    Connected(c) && (c.financialData.None? || c.lastUpdated.None?)
  }

  /** A pass whose accounts come back non-empty stamps the cache, so the
      panel does not ask again. */
  lemma PassWithAccountsSettles(c: Cache, o: Outcomes, now: Timestamp, codec: Codec)
    requires o.accounts.Ok? && |o.accounts.value| > 0
    ensures !ShouldFetch(AfterPass(c, o, now, codec))
  {
    AfterPassFrame(c, o, now, codec);
  }

  /** A pass that yields no accounts leaves an unstamped cache unstamped,
      while the summary it stores is a new object and so a new input of the
      effect: the condition still holds and the panel asks for another
      pass. */
  lemma PassWithoutAccountsAsksAgain(c: Cache, o: Outcomes, now: Timestamp, codec: Codec)
    requires Connected(c) && c.lastUpdated.None?
    requires o.accounts.Err? || o.accounts.value == []
    ensures ShouldFetch(AfterPass(c, o, now, codec))
    ensures AfterPass(c, o, now, codec).financialData.Some?
  {
    AfterPassFrame(c, o, now, codec);
  }

  /** The asset share of the bar, in percent, with its default of 80. */
  function AssetPercentage(data: Option<FinancialSummary>): real
  {
    if data.None? then 80.0
    else
      var total := data.value.totalAssets + data.value.totalLiabilities;
      if total > 0 then (data.value.totalAssets as real / total as real) * 100.0 else 80.0
  }

  /** The liability share, with its default of 20. */
  function LiabilityPercentage(data: Option<FinancialSummary>): real
  {
    if data.None? then 20.0
    else
      var total := data.value.totalAssets + data.value.totalLiabilities;
      if total > 0 then (data.value.totalLiabilities as real / total as real) * 100.0 else 20.0
  }

  /** The two shares always fill the bar; with a positive total they are
      the figures' proportions, and they lie between 0 and 100 when both
      figures are non-negative, as a derived summary's are. */
  lemma PercentagesFillTheBar(data: Option<FinancialSummary>)
    ensures AssetPercentage(data) + LiabilityPercentage(data) == 100.0
    ensures data.Some? && data.value.totalAssets + data.value.totalLiabilities > 0 ==>
      AssetPercentage(data) * (data.value.totalAssets + data.value.totalLiabilities) as real
      == data.value.totalAssets as real * 100.0
    ensures data.Some? && data.value.totalAssets >= 0 && data.value.totalLiabilities >= 0 ==>
      0.0 <= AssetPercentage(data) <= 100.0 && 0.0 <= LiabilityPercentage(data) <= 100.0
  {
    if data.Some? && data.value.totalAssets + data.value.totalLiabilities > 0 {
      Shares(data.value.totalAssets as real, data.value.totalLiabilities as real);
    }
  }

  lemma Shares(a: real, l: real)
    requires a + l > 0.0
    ensures (a / (a + l)) * 100.0 + (l / (a + l)) * 100.0 == 100.0
    ensures (a / (a + l)) * 100.0 * (a + l) == a * 100.0
    ensures a >= 0.0 && l >= 0.0 ==> 0.0 <= a / (a + l) <= 1.0 && 0.0 <= l / (a + l) <= 1.0
  {
    var p := a / (a + l);
    var q := l / (a + l);
    assert p * (a + l) == a && q * (a + l) == l;
    assert (p + q) * (a + l) == a + l;
    assert p + q == 1.0;
    if a >= 0.0 && l >= 0.0 {
      Fraction(a, a + l);
      Fraction(l, a + l);
    }
  }

  /** A share of a positive whole that is at most the whole lies in [0, 1]. */
  lemma Fraction(x: real, total: real)
    requires 0.0 <= x <= total && total > 0.0
    ensures 0.0 <= x / total <= 1.0
  {
    var p := x / total;
    assert p * total == x;
  }

  /** `account.type || "other"`. */
  function TypeKey(a: PlaidAccount): (key: string)
    ensures key != ""
    ensures a.accountType != "" ==> key == a.accountType
  {
    if a.accountType == "" then "other" else a.accountType
  }

  /** The accounts of one group, in list order. */
  function OfType(accounts: seq<PlaidAccount>, key: string): seq<PlaidAccount>
  {
    Filter(accounts, (a: PlaidAccount) => TypeKey(a) == key)
  }

  /** The reducer's step: the account is pushed onto its type's list,
      which starts empty. */
  function AddToGroup(groups: map<string, seq<PlaidAccount>>, a: PlaidAccount): map<string, seq<PlaidAccount>>
  {
    var key := TypeKey(a);
    groups[key := (if key in groups then groups[key] else []) + [a]]
  }

  /** The reduction over the accounts, from an empty object. */
  function GroupsOf(accounts: seq<PlaidAccount>): map<string, seq<PlaidAccount>>
  {
    if |accounts| == 0 then map[]
    else AddToGroup(GroupsOf(accounts[..|accounts| - 1]), accounts[|accounts| - 1])
  }

  /** `groupAccountsByType`: no accounts give no groups; otherwise the
      reducer pushes each account onto its type's list. */
  method GroupAccountsByType(accounts: seq<PlaidAccount>) returns (groups: map<string, seq<PlaidAccount>>)
    ensures groups == GroupsOf(accounts)
  {
    groups := map[];
    if |accounts| == 0 {
      return;
    }
    for i := 0 to |accounts|
      invariant groups == GroupsOf(accounts[..i])
    {
      var key := if accounts[i].accountType == "" then "other" else accounts[i].accountType;
      assert accounts[..i + 1][..i] == accounts[..i];
      if key !in groups {
        groups := groups[key := []];
      }
      groups := groups[key := groups[key] + [accounts[i]]];
    }
    assert accounts[..|accounts|] == accounts;
  }

  /** A group exists exactly for each type present. */
  lemma {:induction false} GroupsOfDomain(accounts: seq<PlaidAccount>, key: string)
    ensures key in GroupsOf(accounts) <==> exists k :: 0 <= k < |accounts| && TypeKey(accounts[k]) == key
  {
    if |accounts| > 0 {
      var i := |accounts| - 1;
      GroupsOfDomain(accounts[..i], key);
      assert forall k :: 0 <= k < i ==> accounts[..i][k] == accounts[k];
    }
  }

  /** Each group holds its type's accounts in list order. */
  lemma {:induction false} GroupsOfContents(accounts: seq<PlaidAccount>, key: string)
    requires key in GroupsOf(accounts)
    ensures GroupsOf(accounts)[key] == OfType(accounts, key)
  {
    var i := |accounts| - 1;
    GroupStep(accounts, i);
    assert accounts[..i + 1] == accounts;
    if key in GroupsOf(accounts[..i]) {
      GroupsOfContents(accounts[..i], key);
    } else {
      GroupsOfDomain(accounts[..i], key);
      FilterKeepsNone(accounts[..i], (a: PlaidAccount) => TypeKey(a) == key);
    }
  }

  lemma GroupStep(accounts: seq<PlaidAccount>, i: int)
    requires 0 <= i < |accounts|
    ensures OfType(accounts[..i + 1], TypeKey(accounts[i])) == OfType(accounts[..i], TypeKey(accounts[i])) + [accounts[i]]
    ensures forall key :: key != TypeKey(accounts[i]) ==> OfType(accounts[..i + 1], key) == OfType(accounts[..i], key)
  {
    assert accounts[..i + 1][..i] == accounts[..i];
  }

  /** Every account is in exactly the group of its type, and no account
      with an empty type is lost: it is in the `other` group. */
  lemma GroupsPartition(accounts: seq<PlaidAccount>, a: PlaidAccount, key: string)
    requires a in accounts
    ensures a in OfType(accounts, key) <==> TypeKey(a) == key
    ensures a.accountType == "" ==> a in OfType(accounts, "other")
  {
    FilterMember(accounts, (b: PlaidAccount) => TypeKey(b) == key, a);
    FilterMember(accounts, (b: PlaidAccount) => TypeKey(b) == "other", a);
  }

  /** `calculateGroupBalance`: the current balances, 0 when missing. */
  function GroupBalance(accounts: seq<PlaidAccount>): int
  {
    Sum(accounts, Current)
  }

  /** A group's balance with accounts added is the two balances added. */
  lemma GroupBalanceAdds(a: seq<PlaidAccount>, b: seq<PlaidAccount>)
    ensures GroupBalance(a + b) == GroupBalance(a) + GroupBalance(b)
  {
    SumAppend(a, b, Current);
  }

  /** `accountGroups[key] || []`. */
  function Group(groups: map<string, seq<PlaidAccount>>, key: string): seq<PlaidAccount>
  {
    if key in groups then groups[key] else []
  }

  /** The Investments section is shown for an investment group or for
      investment accounts in the cache. */
  predicate ShowInvestments(groups: map<string, seq<PlaidAccount>>, investments: InvestmentBundle)
  {
    "investment" in groups || |investments.accounts| > 0
  }

  /** The Investments header: the group's balances and the holdings' values. */
  function InvestmentsHeader(groups: map<string, seq<PlaidAccount>>, investments: InvestmentBundle): int
  {
    GroupBalance(Group(groups, "investment")) + Sum(investments.holdings, HoldingValue)
  }

  predicate ShowCredit(groups: map<string, seq<PlaidAccount>>, liabilities: LiabilityBundle)
  {
    "credit" in groups || |liabilities.credit| > 0
  }

  /** The Credit & Loans header: the credit group's balance as a magnitude
      and every credit, mortgage and student record's. */
  function CreditHeader(groups: map<string, seq<PlaidAccount>>, liabilities: LiabilityBundle): int
  {
    Abs(GroupBalance(Group(groups, "credit")))
    + Sum(liabilities.credit, Owed) + Sum(liabilities.mortgage, Owed) + Sum(liabilities.student, Owed)
  }

  /** The header is the summary's liabilities plus the credit accounts'
      balance: a card shows up both as an account and as a liability. */
  lemma CreditHeaderCountsBoth(groups: map<string, seq<PlaidAccount>>, liabilities: LiabilityBundle)
    ensures CreditHeader(groups, liabilities)
            == Abs(GroupBalance(Group(groups, "credit"))) + TotalLiabilities(Liabilities(liabilities))
    ensures CreditHeader(groups, liabilities) >= TotalLiabilities(Liabilities(liabilities))
  {
  }

  /** A type's group is its accounts in list order, and no group at all
      when there are none. */
  lemma GroupOfType(accounts: seq<PlaidAccount>, key: string)
    ensures Group(GroupsOf(accounts), key) == OfType(accounts, key)
  {
    if key in GroupsOf(accounts) {
      GroupsOfContents(accounts, key);
    } else {
      GroupsOfDomain(accounts, key);
      FilterKeepsNone(accounts, (a: PlaidAccount) => TypeKey(a) == key);
    }
  }

  /** The Investments header is the assets figure of the investment
      accounts alone: none of them is a credit account, so each adds its
      current balance, and the holdings add their values. */
  lemma InvestmentsHeaderIsAssets(accounts: seq<PlaidAccount>, investments: InvestmentBundle)
    ensures InvestmentsHeader(GroupsOf(accounts), investments)
            == TotalAssets(OfType(accounts, "investment"), Investments(investments))
  {
    GroupOfType(accounts, "investment");
    var group := OfType(accounts, "investment");
    forall a | a in group ensures Current(a) == AccountAsset(a) {
      FilterMember(accounts, (b: PlaidAccount) => TypeKey(b) == "investment", a);
    }
    SumCongruent(group, Current, AccountAsset);
  }

  /** The Investments section is drawn exactly when an account has the
      investment type or the cache holds investment accounts. */
  lemma ShowInvestmentsIff(accounts: seq<PlaidAccount>, investments: InvestmentBundle)
    ensures ShowInvestments(GroupsOf(accounts), investments)
            <==> (exists k :: 0 <= k < |accounts| && accounts[k].accountType == "investment")
                 || |investments.accounts| > 0
  {
    GroupsOfDomain(accounts, "investment");
  }

  /** The Credit & Loans section is drawn exactly when an account has the
      credit type or the cache holds credit records. */
  lemma ShowCreditIff(accounts: seq<PlaidAccount>, liabilities: LiabilityBundle)
    ensures ShowCredit(GroupsOf(accounts), liabilities)
            <==> (exists k :: 0 <= k < |accounts| && accounts[k].accountType == "credit")
                 || |liabilities.credit| > 0
  {
    GroupsOfDomain(accounts, "credit");
  }

  /** The cash-flow card: a sign and the magnitude of the savings. */
  function CashFlow(savings: int): (r: (string, nat))
    ensures r.0 == "+" <==> savings >= 0
    ensures r.0 == "+" || r.0 == "-"
  {
    (if savings >= 0 then "+" else "-", Abs(savings))
  }

  /** Sign and magnitude give back the savings. */
  lemma CashFlowRoundTrip(savings: int)
    ensures var r := CashFlow(savings); (if r.0 == "+" then r.1 as int else -(r.1 as int)) == savings
  {
  }
}

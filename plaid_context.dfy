/** The client-side cache of provider data: seven state fields and the
    browser's key-value storage they are mirrored into. Every setter is
    followed by that field's persistence effect, whose write, skip and
    remove rules are fixed per key; mounting restores each key on its own.
    JSON text is abstracted by a codec: an encoder per kind and a decoder
    that may fail. */
module PlaidContext {
  import opened Common
  import opened PlaidTypes

  /** The seven storage keys the provider uses; no other key is read or
      written, so storage is modelled over these alone. */
  datatype Key = TokenKey | AccountsKey | TransactionsKey | InvestmentsKey | LiabilitiesKey
               | FinancialDataKey | LastUpdatedKey

  /** The key's text in the browser's storage. */
  function KeyName(k: Key): string
  {
    match k
    case TokenKey => "plaid_access_token"
    case AccountsKey => "plaid_connected_accounts"
    case TransactionsKey => "plaid_transactions"
    case InvestmentsKey => "plaid_investments"
    case LiabilitiesKey => "plaid_liabilities"
    case FinancialDataKey => "plaid_financial_data"
    case LastUpdatedKey => "plaid_last_updated"
  }

  /** `JSON.stringify` / `JSON.parse` per kind, and `toISOString` /
      `new Date(text)` for instants. Decoding the summary includes turning
      its `lastUpdated` text back into an instant. */
  datatype Codec = Codec(
    encodeAccounts: seq<PlaidAccount> -> string,
    decodeAccounts: string -> Option<seq<PlaidAccount>>,
    encodeTransactions: seq<PlaidTransaction> -> string,
    decodeTransactions: string -> Option<seq<PlaidTransaction>>,
    encodeInvestments: InvestmentBundle -> string,
    decodeInvestments: string -> Option<InvestmentBundle>,
    encodeLiabilities: LiabilityBundle -> string,
    decodeLiabilities: string -> Option<LiabilityBundle>,
    encodeSummary: FinancialSummary -> string,
    decodeSummary: string -> Option<FinancialSummary>,
    iso: Timestamp -> string,
    parseDate: string -> Timestamp)

  /** What JSON guarantees: encoded text is never empty and decodes back
      to the value, and an instant's ISO text reads back as the instant. */
  ghost predicate RoundTrips(c: Codec)
  {
    && (forall a :: c.encodeAccounts(a) != "" && c.decodeAccounts(c.encodeAccounts(a)) == Some(a))
    && (forall t :: c.encodeTransactions(t) != "" && c.decodeTransactions(c.encodeTransactions(t)) == Some(t))
    && (forall b :: c.encodeInvestments(b) != "" && c.decodeInvestments(c.encodeInvestments(b)) == Some(b))
    && (forall b :: c.encodeLiabilities(b) != "" && c.decodeLiabilities(c.encodeLiabilities(b)) == Some(b))
    && (forall s :: c.encodeSummary(s) != "" && c.decodeSummary(c.encodeSummary(s)) == Some(s))
    && (forall t :: c.iso(t) != "" && c.parseDate(c.iso(t)) == t)
  }

  /** `localStorage.getItem(key)` is truthy: present and not empty. */
  predicate Present(storage: map<Key, string>, key: Key)
  {
    key in storage && storage[key] != ""
  }

  /** A snapshot of the provider's state. */
  datatype Cache = Cache(
    accessToken: Option<string>,
    connectedAccounts: seq<PlaidAccount>,
    transactions: seq<PlaidTransaction>,
    investments: InvestmentBundle,
    liabilities: LiabilityBundle,
    financialData: Option<FinancialSummary>,
    lastUpdated: Option<Timestamp>,
    storage: map<Key, string>)

  /** Storage outside `keys` is untouched. */
  ghost predicate SameElsewhere(before: map<Key, string>, after: map<Key, string>, keys: set<Key>)
  {
    forall k :: k !in keys ==> (k in before <==> k in after) && (k in before ==> before[k] == after[k])
  }

  /** `!!accessToken`. */
  predicate Connected(c: Cache)
  {
    c.accessToken.Some? && c.accessToken.value != ""
  }

  function WithAccessToken(c: Cache, token: Option<string>): Cache
  {
    c.(accessToken := token,
       storage := if Truthy(token) then c.storage[TokenKey := token.value] else c.storage - {TokenKey})
  }

  /** Accounts, then their effect: store them and stamp `now`, or drop the
      stale key when they were cleared. */
  function WithConnectedAccounts(c: Cache, accounts: seq<PlaidAccount>, now: Timestamp, codec: Codec): Cache
  {
    if |accounts| > 0 then
      c.(connectedAccounts := accounts, lastUpdated := Some(now),
         storage := c.storage[AccountsKey := codec.encodeAccounts(accounts)][LastUpdatedKey := codec.iso(now)])
    else if Present(c.storage, AccountsKey) then
      c.(connectedAccounts := accounts, storage := c.storage - {AccountsKey})
    else c.(connectedAccounts := accounts)
  }

  function WithTransactions(c: Cache, transactions: seq<PlaidTransaction>, codec: Codec): Cache
  {
    c.(transactions := transactions,
       storage := if |transactions| > 0 then c.storage[TransactionsKey := codec.encodeTransactions(transactions)]
                  else c.storage)
  }

  predicate InvestmentsWorthStoring(b: InvestmentBundle)
  {
    |b.accounts| > 0 || |b.holdings| > 0
  }

  function WithInvestments(c: Cache, investments: InvestmentBundle, codec: Codec): Cache
  {
    c.(investments := investments,
       storage := if InvestmentsWorthStoring(investments)
                  then c.storage[InvestmentsKey := codec.encodeInvestments(investments)] else c.storage)
  }

  predicate LiabilitiesWorthStoring(b: LiabilityBundle)
  {
    |b.accounts| > 0 || |b.credit| > 0 || |b.mortgage| > 0 || |b.student| > 0
  }

  function WithLiabilities(c: Cache, liabilities: LiabilityBundle, codec: Codec): Cache
  {
    c.(liabilities := liabilities,
       storage := if LiabilitiesWorthStoring(liabilities)
                  then c.storage[LiabilitiesKey := codec.encodeLiabilities(liabilities)] else c.storage)
  }

  function WithFinancialData(c: Cache, data: Option<FinancialSummary>, codec: Codec): Cache
  {
    c.(financialData := data,
       storage := if data.Some? then c.storage[FinancialDataKey := codec.encodeSummary(data.value)] else c.storage)
  }

  function WithLastUpdated(c: Cache, instant: Option<Timestamp>, codec: Codec): Cache
  {
    c.(lastUpdated := instant,
       storage := if instant.Some? then c.storage[LastUpdatedKey := codec.iso(instant.value)] else c.storage)
  }

  /** What the load effect reads: each key on its own, absent when the key
      is missing or empty or its text does not parse. */
  datatype Loaded = Loaded(
    accessToken: Option<string>,
    connectedAccounts: Option<seq<PlaidAccount>>,
    transactions: Option<seq<PlaidTransaction>>,
    investments: Option<InvestmentBundle>,
    liabilities: Option<LiabilityBundle>,
    financialData: Option<FinancialSummary>,
    lastUpdated: Option<Timestamp>)

  function Read<T>(storage: map<Key, string>, key: Key, decode: string -> Option<T>): (r: Option<T>)
    ensures !Present(storage, key) ==> r.None?
    ensures Present(storage, key) ==> r == decode(storage[key])
  {
    if Present(storage, key) then decode(storage[key]) else None
  }

  function Load(storage: map<Key, string>, codec: Codec): (l: Loaded)
    ensures l.accessToken.Some? <==> Present(storage, TokenKey)
    ensures l.accessToken.Some? ==> l.accessToken.value == storage[TokenKey]
    ensures l.lastUpdated.Some? <==> Present(storage, LastUpdatedKey)
    ensures !Present(storage, AccountsKey) ==> l.connectedAccounts.None?
    ensures !Present(storage, TransactionsKey) ==> l.transactions.None?
    ensures !Present(storage, InvestmentsKey) ==> l.investments.None?
    ensures !Present(storage, LiabilitiesKey) ==> l.liabilities.None?
    ensures !Present(storage, FinancialDataKey) ==> l.financialData.None?
  {
    Loaded(
      Read(storage, TokenKey, (s: string) => Some(s)),
      Read(storage, AccountsKey, codec.decodeAccounts),
      Read(storage, TransactionsKey, codec.decodeTransactions),
      Read(storage, InvestmentsKey, codec.decodeInvestments),
      Read(storage, LiabilitiesKey, codec.decodeLiabilities),
      Read(storage, FinancialDataKey, codec.decodeSummary),
      Read(storage, LastUpdatedKey, (s: string) => Some(codec.parseDate(s))))
  }

  function Initial(storage: map<Key, string>): Cache
  {
    Cache(None, [], [], EmptyInvestments, EmptyLiabilities, None, None, storage)
  }

  /** The first pass of the persistence effects, over the initial state:
      the token key is removed and a truthy accounts key is removed; the
      other effects have nothing to write. */
  function FirstEffects(c: Cache, codec: Codec): Cache
  {
    WithConnectedAccounts(WithAccessToken(c, None), [], 0, codec)
  }

  /** Each restore step applies one loaded value through its setter, or
      keeps the state when nothing was loaded for that key. */
  function RestoreToken(c: Cache, l: Loaded): Cache
  {
    if l.accessToken.Some? then WithAccessToken(c, l.accessToken) else c
  }

  function RestoreTransactions(c: Cache, l: Loaded, codec: Codec): Cache
  {
    if l.transactions.Some? then WithTransactions(c, l.transactions.value, codec) else c
  }

  function RestoreInvestments(c: Cache, l: Loaded, codec: Codec): Cache
  {
    if l.investments.Some? then WithInvestments(c, l.investments.value, codec) else c
  }

  function RestoreLiabilities(c: Cache, l: Loaded, codec: Codec): Cache
  {
    if l.liabilities.Some? then WithLiabilities(c, l.liabilities.value, codec) else c
  }

  function RestoreFinancialData(c: Cache, l: Loaded, codec: Codec): Cache
  {
    if l.financialData.Some? then WithFinancialData(c, l.financialData, codec) else c
  }

  function RestoreLastUpdated(c: Cache, l: Loaded, codec: Codec): Cache
  {
    if l.lastUpdated.Some? then WithLastUpdated(c, l.lastUpdated, codec) else c
  }

  function RestoreAccounts(c: Cache, l: Loaded, now: Timestamp, codec: Codec): Cache
  {
    if l.connectedAccounts.Some? then WithConnectedAccounts(c, l.connectedAccounts.value, now, codec) else c
  }

  /** The five data keys, in the order the load effect applies them. */
  function RestoreData(c: Cache, l: Loaded, codec: Codec): Cache
  {
    RestoreLastUpdated(
      RestoreFinancialData(
        RestoreLiabilities(
          RestoreInvestments(
            RestoreTransactions(c, l, codec), l, codec), l, codec), l, codec), l, codec)
  }

  /** The load effect: the loaded values through their setters, accounts last. */
  function Restore(c: Cache, l: Loaded, now: Timestamp, codec: Codec): Cache
  {
    RestoreAccounts(RestoreData(RestoreToken(c, l), l, codec), l, now, codec)
  }

  /** The provider after mounting over `storage`. */
  function Mounted(storage: map<Key, string>, now: Timestamp, codec: Codec): Cache
  {
    Restore(FirstEffects(Initial(storage), codec), Load(storage, codec), now, codec)
  }

  /** The provider itself. */
  class PlaidProvider {
    var accessToken: Option<string>
    var connectedAccounts: seq<PlaidAccount>
    var transactions: seq<PlaidTransaction>
    var investments: InvestmentBundle
    var liabilities: LiabilityBundle
    var financialData: Option<FinancialSummary>
    var lastUpdated: Option<Timestamp>
    var storage: map<Key, string>
    const codec: Codec

    function Snapshot(): Cache
      reads this
    {
      Cache(accessToken, connectedAccounts, transactions, investments, liabilities, financialData,
            lastUpdated, storage)
    }

    /** `isConnected`. */
    predicate IsConnected()
      reads this
      ensures IsConnected() <==> accessToken.Some? && accessToken.value != ""
    {
      Connected(Snapshot())
    }

    /** Mounting: the initial state, the first pass of the effects, then the
        values the load effect read, each through its setter. The accounts
        setter runs last because the instant it stamps outlives the loaded
        one. */
    constructor (storage0: map<Key, string>, codec0: Codec, now: Timestamp)
      ensures Snapshot() == Mounted(storage0, now, codec0) && codec == codec0
    {
      accessToken, connectedAccounts, transactions := None, [], [];
      investments, liabilities := EmptyInvestments, EmptyLiabilities;
      financialData, lastUpdated, storage := None, None, storage0;
      codec := codec0;
      new;
      SetAccessToken(None);
      SetConnectedAccounts([], 0);
      ApplyLoaded(Load(storage0, codec0), now);
    }

    /** The load effect: each loaded value through its setter, accounts last. */
    method ApplyLoaded(loaded: Loaded, now: Timestamp)
      modifies this
      ensures Snapshot() == Restore(old(Snapshot()), loaded, now, codec)
    {
      if loaded.accessToken.Some? { SetAccessToken(loaded.accessToken); }
      ApplyLoadedData(loaded);
      if loaded.connectedAccounts.Some? { SetConnectedAccounts(loaded.connectedAccounts.value, now); }
    }

    /** The five data keys of the load effect, in order. */
    method ApplyLoadedData(loaded: Loaded)
      modifies this
      ensures Snapshot() == RestoreData(old(Snapshot()), loaded, codec)
    {
      if loaded.transactions.Some? { SetTransactions(loaded.transactions.value); }
      if loaded.investments.Some? { SetInvestments(loaded.investments.value); }
      if loaded.liabilities.Some? { SetLiabilities(loaded.liabilities.value); }
      if loaded.financialData.Some? { SetFinancialData(loaded.financialData); }
      if loaded.lastUpdated.Some? { SetLastUpdated(loaded.lastUpdated); }
    }

    method SetAccessToken(token: Option<string>)
      modifies this
      ensures Snapshot() == WithAccessToken(old(Snapshot()), token)
    {
      accessToken := token;
      if Truthy(token) {
        storage := storage[TokenKey := token.value];
      } else {
        storage := storage - {TokenKey};
      }
    }

    method SetConnectedAccounts(accounts: seq<PlaidAccount>, now: Timestamp)
      modifies this
      ensures Snapshot() == WithConnectedAccounts(old(Snapshot()), accounts, now, codec)
    {
      connectedAccounts := accounts;
      if |accounts| > 0 {
        storage := storage[AccountsKey := codec.encodeAccounts(accounts)];
        lastUpdated := Some(now);
        storage := storage[LastUpdatedKey := codec.iso(now)];
      } else if Present(storage, AccountsKey) {
        storage := storage - {AccountsKey};
      }
    }

    method SetTransactions(ts: seq<PlaidTransaction>)
      modifies this
      ensures Snapshot() == WithTransactions(old(Snapshot()), ts, codec)
    {
      transactions := ts;
      if |ts| > 0 {
        storage := storage[TransactionsKey := codec.encodeTransactions(ts)];
      }
    }

    method SetInvestments(b: InvestmentBundle)
      modifies this
      ensures Snapshot() == WithInvestments(old(Snapshot()), b, codec)
    {
      investments := b;
      if |b.accounts| > 0 || |b.holdings| > 0 {
        storage := storage[InvestmentsKey := codec.encodeInvestments(b)];
      }
    }

    method SetLiabilities(b: LiabilityBundle)
      modifies this
      ensures Snapshot() == WithLiabilities(old(Snapshot()), b, codec)
    {
      liabilities := b;
      if |b.accounts| > 0 || |b.credit| > 0 || |b.mortgage| > 0 || |b.student| > 0 {
        storage := storage[LiabilitiesKey := codec.encodeLiabilities(b)];
      }
    }

    method SetFinancialData(data: Option<FinancialSummary>)
      modifies this
      ensures Snapshot() == WithFinancialData(old(Snapshot()), data, codec)
    {
      financialData := data;
      if data.Some? {
        storage := storage[FinancialDataKey := codec.encodeSummary(data.value)];
      }
    }

    method SetLastUpdated(instant: Option<Timestamp>)
      modifies this
      ensures Snapshot() == WithLastUpdated(old(Snapshot()), instant, codec)
    {
      lastUpdated := instant;
      if instant.Some? {
        storage := storage[LastUpdatedKey := codec.iso(instant.value)];
      }
    }
  }

  /** The token key holds the token exactly when it is truthy; nothing else
      is touched. */
  lemma AccessTokenRule(c: Cache, token: Option<string>)
    ensures var d := WithAccessToken(c, token);
      && (TokenKey in d.storage <==> Truthy(token))
      && (Truthy(token) ==> d.storage[TokenKey] == token.value)
      && SameElsewhere(c.storage, d.storage, {TokenKey})
      && (Connected(d) <==> Truthy(token))
  {
  }

  /** Non-empty accounts are stored and stamp `now`; cleared accounts only
      drop a truthy accounts key and leave the stamp as it was. */
  lemma ConnectedAccountsRule(c: Cache, accounts: seq<PlaidAccount>, now: Timestamp, codec: Codec)
    ensures var d := WithConnectedAccounts(c, accounts, now, codec);
      && d.connectedAccounts == accounts
      && (|accounts| > 0 ==> d.lastUpdated == Some(now) && d.storage[AccountsKey] == codec.encodeAccounts(accounts)
                             && d.storage[LastUpdatedKey] == codec.iso(now)
                             && SameElsewhere(c.storage, d.storage, {AccountsKey, LastUpdatedKey}))
      && (|accounts| == 0 ==> d.lastUpdated == c.lastUpdated && (Present(c.storage, AccountsKey) ==> AccountsKey !in d.storage)
                              && (!Present(c.storage, AccountsKey) ==> d.storage == c.storage)
                              && SameElsewhere(c.storage, d.storage, {AccountsKey}))
  {
  }

  /** Transactions, investments, liabilities and the summary are written
      only when worth storing and their keys are never removed. */
  lemma WriteOnlyKeys(c: Cache, ts: seq<PlaidTransaction>, inv: InvestmentBundle, lia: LiabilityBundle,
                      data: Option<FinancialSummary>, codec: Codec)
    ensures var d := WithTransactions(c, ts, codec);
      && (|ts| > 0 ==> d.storage[TransactionsKey] == codec.encodeTransactions(ts))
      && (|ts| == 0 ==> d.storage == c.storage)
      && SameElsewhere(c.storage, d.storage, {TransactionsKey})
      && (TransactionsKey in c.storage ==> TransactionsKey in d.storage)
    ensures var d := WithInvestments(c, inv, codec);
      && (InvestmentsWorthStoring(inv) ==> d.storage[InvestmentsKey] == codec.encodeInvestments(inv))
      && (!InvestmentsWorthStoring(inv) ==> d.storage == c.storage)
      && SameElsewhere(c.storage, d.storage, {InvestmentsKey})
    ensures var d := WithLiabilities(c, lia, codec);
      && (LiabilitiesWorthStoring(lia) ==> d.storage[LiabilitiesKey] == codec.encodeLiabilities(lia))
      && (!LiabilitiesWorthStoring(lia) ==> d.storage == c.storage)
      && SameElsewhere(c.storage, d.storage, {LiabilitiesKey})
    ensures var d := WithFinancialData(c, data, codec);
      && (data.Some? ==> d.storage[FinancialDataKey] == codec.encodeSummary(data.value))
      && (data.None? ==> d.storage == c.storage)
      && SameElsewhere(c.storage, d.storage, {FinancialDataKey})
  {
  }

  /** What a setter stores, a later mount reads back. */
  lemma PersistedValuesLoadBack(c: Cache, token: Option<string>, accounts: seq<PlaidAccount>,
                                ts: seq<PlaidTransaction>, inv: InvestmentBundle, debts: LiabilityBundle,
                                summary: FinancialSummary, now: Timestamp, codec: Codec)
    requires RoundTrips(codec)
    ensures Load(WithAccessToken(c, token).storage, codec).accessToken == if Truthy(token) then token else None
    ensures |accounts| > 0 ==>
      var l := Load(WithConnectedAccounts(c, accounts, now, codec).storage, codec);
      l.connectedAccounts == Some(accounts) && l.lastUpdated == Some(now)
    ensures |accounts| == 0 ==> Load(WithConnectedAccounts(c, accounts, now, codec).storage, codec).connectedAccounts == None
    ensures |ts| > 0 ==> Load(WithTransactions(c, ts, codec).storage, codec).transactions == Some(ts)
    ensures InvestmentsWorthStoring(inv) ==> Load(WithInvestments(c, inv, codec).storage, codec).investments == Some(inv)
    ensures LiabilitiesWorthStoring(debts) ==>
      Load(WithLiabilities(c, debts, codec).storage, codec).liabilities == Some(debts)
    ensures Load(WithFinancialData(c, Some(summary), codec).storage, codec).financialData == Some(summary)
    ensures Load(WithLastUpdated(c, Some(now), codec).storage, codec).lastUpdated == Some(now)
  {
  }

  /** Keys load independently: what is read for one key depends on that
      key's text alone, so a corrupt key costs only its own field. */
  lemma LoadIndependent(s1: map<Key, string>, s2: map<Key, string>, codec: Codec)
    requires Present(s1, AccountsKey) == Present(s2, AccountsKey)
    requires Present(s1, AccountsKey) ==> s1[AccountsKey] == s2[AccountsKey]
    ensures Load(s1, codec).connectedAccounts == Load(s2, codec).connectedAccounts
  {
  }

  /** Restoring the data keys sets each field to its loaded value, when
      there is one, and touches neither the token, the accounts nor their
      keys. */
  lemma RestoreDataFrame(c: Cache, l: Loaded, codec: Codec)
    ensures var d := RestoreData(c, l, codec);
      && KeepsTokenAndAccounts(c, d)
      && d.transactions == (if l.transactions.Some? then l.transactions.value else c.transactions)
      && d.investments == (if l.investments.Some? then l.investments.value else c.investments)
      && d.liabilities == (if l.liabilities.Some? then l.liabilities.value else c.liabilities)
      && d.financialData == (if l.financialData.Some? then l.financialData else c.financialData)
      && d.lastUpdated == (if l.lastUpdated.Some? then l.lastUpdated else c.lastUpdated)
  {
    var c2 := RestoreTransactions(c, l, codec);
    var c3 := RestoreInvestments(c2, l, codec);
    var c4 := RestoreLiabilities(c3, l, codec);
    var c5 := RestoreFinancialData(c4, l, codec);
    RestoreTransactionsStep(c, l, codec);
    RestoreInvestmentsStep(c2, l, codec);
    RestoreLiabilitiesStep(c3, l, codec);
    RestoreFinancialDataStep(c4, l, codec);
    RestoreLastUpdatedStep(c5, l, codec);
  }

  /** The token, the accounts and their keys are as they were. */
  ghost predicate KeepsTokenAndAccounts(c: Cache, d: Cache)
  {
    && d.accessToken == c.accessToken && d.connectedAccounts == c.connectedAccounts
    && (TokenKey in d.storage <==> TokenKey in c.storage)
    && (Present(d.storage, AccountsKey) <==> Present(c.storage, AccountsKey))
  }

  /** The transactions step changes its own field and key only. */
  lemma RestoreTransactionsStep(c: Cache, l: Loaded, codec: Codec)
    ensures var d := RestoreTransactions(c, l, codec);
      && KeepsTokenAndAccounts(c, d) && d.(transactions := c.transactions, storage := c.storage) == c
      && d.transactions == (if l.transactions.Some? then l.transactions.value else c.transactions)
  {
  }

  /** The investments step changes its own field and key only. */
  lemma RestoreInvestmentsStep(c: Cache, l: Loaded, codec: Codec)
    ensures var d := RestoreInvestments(c, l, codec);
      && KeepsTokenAndAccounts(c, d) && d.(investments := c.investments, storage := c.storage) == c
      && d.investments == (if l.investments.Some? then l.investments.value else c.investments)
  {
  }

  /** The liabilities step changes its own field and key only. */
  lemma RestoreLiabilitiesStep(c: Cache, l: Loaded, codec: Codec)
    ensures var d := RestoreLiabilities(c, l, codec);
      && KeepsTokenAndAccounts(c, d) && d.(liabilities := c.liabilities, storage := c.storage) == c
      && d.liabilities == (if l.liabilities.Some? then l.liabilities.value else c.liabilities)
  {
  }

  /** The financialData step changes its own field and key only. */
  lemma RestoreFinancialDataStep(c: Cache, l: Loaded, codec: Codec)
    ensures var d := RestoreFinancialData(c, l, codec);
      && KeepsTokenAndAccounts(c, d) && d.(financialData := c.financialData, storage := c.storage) == c
      && d.financialData == (if l.financialData.Some? then l.financialData else c.financialData)
  {
  }

  /** The lastUpdated step changes its own field and key only. */
  lemma RestoreLastUpdatedStep(c: Cache, l: Loaded, codec: Codec)
    ensures var d := RestoreLastUpdated(c, l, codec);
      && KeepsTokenAndAccounts(c, d) && d.(lastUpdated := c.lastUpdated, storage := c.storage) == c
      && d.lastUpdated == (if l.lastUpdated.Some? then l.lastUpdated else c.lastUpdated)
  {
  }

  /** The state right after mounting: each field is its loaded value or its
      initial one; the stamp is `now` when accounts were restored; the token
      key survives only if it held a token, and an accounts key that did
      not restore any accounts is gone. */
  lemma {:induction false} MountedState(storage: map<Key, string>, now: Timestamp, codec: Codec)
    ensures var m := Mounted(storage, now, codec);
      var l := Load(storage, codec);
      && m.accessToken == l.accessToken
      && (Connected(m) <==> Present(storage, TokenKey))
      && m.connectedAccounts == (if l.connectedAccounts.Some? then l.connectedAccounts.value else [])
      && m.transactions == (if l.transactions.Some? then l.transactions.value else [])
      && m.investments == (if l.investments.Some? then l.investments.value else EmptyInvestments)
      && m.liabilities == (if l.liabilities.Some? then l.liabilities.value else EmptyLiabilities)
      && m.financialData == l.financialData
      && m.lastUpdated == (if l.connectedAccounts.Some? && |l.connectedAccounts.value| > 0 then Some(now)
                           else l.lastUpdated)
      && (TokenKey in m.storage <==> Present(storage, TokenKey))
      && (l.connectedAccounts.None? || l.connectedAccounts.value == [] ==> !Present(m.storage, AccountsKey))
  {
    var c := FirstEffects(Initial(storage), codec);
    var l := Load(storage, codec);
    assert TokenKey !in c.storage && !Present(c.storage, AccountsKey);
    var c1 := RestoreToken(c, l);
    RestoreTokenStep(c, l);
    var c6 := RestoreData(c1, l, codec);
    RestoreDataFrame(c1, l, codec);
    RestoreAccountsStep(c6, l, now, codec);
  }

  /** The token step sets the token and its key only. */
  lemma RestoreTokenStep(c: Cache, l: Loaded)
    ensures var d := RestoreToken(c, l);
      && d.(accessToken := c.accessToken, storage := c.storage) == c
      && d.accessToken == (if l.accessToken.Some? then l.accessToken else c.accessToken)
      && (TokenKey in d.storage <==> if l.accessToken.Some? then Truthy(l.accessToken) else TokenKey in c.storage)
      && (Present(d.storage, AccountsKey) <==> Present(c.storage, AccountsKey))
  {
  }

  /** The accounts step sets the accounts, maybe the stamp, and their keys only. */
  lemma RestoreAccountsStep(c: Cache, l: Loaded, now: Timestamp, codec: Codec)
    ensures var d := RestoreAccounts(c, l, now, codec);
      && d.(connectedAccounts := c.connectedAccounts, lastUpdated := c.lastUpdated, storage := c.storage) == c
      && d.connectedAccounts == (if l.connectedAccounts.Some? then l.connectedAccounts.value else c.connectedAccounts)
      && d.lastUpdated == (if l.connectedAccounts.Some? && |l.connectedAccounts.value| > 0 then Some(now)
                           else c.lastUpdated)
      && (TokenKey in d.storage <==> TokenKey in c.storage)
      && (l.connectedAccounts.Some? && l.connectedAccounts.value == [] ==> !Present(d.storage, AccountsKey))
      && (l.connectedAccounts.None? ==> d.storage == c.storage)
  {
  }
}

# Financial wellness: the provider aggregation layer

This project models how the Financial-wellness dashboard gathers bank data
from Plaid, the banking-data provider. It covers these parts:

- **The five edge functions**: token exchange, accounts, transactions,
  investments and liabilities.
  - Each one authenticates the caller.
  - Each one selects the user's active `plaid_items` rows.
  - Each one fans out one provider call per item and merges the per-item
    results.
- **The browser-side helpers** in `src/api/plaid-api.ts`.
- **The client data hook** `usePlaidAPI`. It holds the four fetchers,
  `fetchAllFinancialData` and the three calculators of the financial
  summary.
- **The `PlaidContext` cache**: seven state fields persisted to the
  browser's storage.
- **The dashboard widgets built on that data**:
  - the transactions panel;
  - the financial wellness panel;
  - the budget panel;
  - the equity compensation, debt optimization and account summary
    widgets.

Modelling choices:

- **Money.** Amounts are whole numbers of cents.
- **Rates.** Interest rates and percentages are reals. JavaScript's
  `Math.round(x)` is `floor(x + 1/2)`.
- **Dates.** Dates are ISO `yyyy-MM-dd` strings. They are compared
  lexicographically, which orders them by time.
- **Parameters.** "Now", "today" and the "30 days ago" default are
  parameters.
- **The provider client.** The client is a datatype with one total function
  per call the core makes. Each function returns `Ok` or `Err`.
- **Store errors.** The store's query and insert errors are inputs.
- **JSON.** `JSON.stringify`/`JSON.parse` are a codec of encode and decode
  functions. Decoding may fail. Where a property needs it, the codec is
  assumed to round-trip.

Code that updates state step by step is imperative Dafny:

- the storage-backed provider is a class whose setters carry their
  persistence effects;
- the hook is a class over that provider;
- the items table is a class;
- the transactions panel's filter state is a class;
- the accumulator loops are methods with loop invariants;
- the two in-place `Array.prototype.sort` calls of the budget panel sort an
  `array`.

Each such method is proved against a function, and the lemmas are about
those functions.

## Model

| member | source | states |
|---|---|---|
| Provider.InstitutionName | supabase/functions/plaid-get-accounts/index.ts:65-78 | A failed item lookup fails. An item with no institution id gives "Unknown Institution". Otherwise the result is the institution lookup's. |
| ItemStore.SelectActive | supabase/functions/plaid-get-accounts/index.ts:44-50 | A query error is returned as the error. Otherwise the result holds exactly the rows of this user whose status is active. |
| ItemStore.ItemsTable.constructor | supabase/functions/plaid-exchange-token/index.ts:62-69 | The table starts with the given rows. |
| ItemStore.ItemsTable.Insert | supabase/functions/plaid-exchange-token/index.ts:62-71 | The row is appended unless the store refuses. The store's error is reported. No other row changes. |
| GetAccounts.MapAccount | supabase/functions/plaid-get-accounts/index.ts:80-94 | Keeps the provider's id, name and type. Keeps the available, current and limit balances and the currency. Adds the item's institution and item id. |
| GetAccounts.MapAccounts | supabase/functions/plaid-get-accounts/index.ts:80-94 | One mapped account per provider account, in order. |
| GetAccounts.GetAccounts | supabase/functions/plaid-get-accounts/index.ts:22-110 | No session gives 401 `not_authenticated`. A query error gives 500 with its message. Every non-200 response has an error body. |
| GetAccounts.ZeroItemsShortCircuit | supabase/functions/plaid-get-accounts/index.ts:51-56 | With no active item the answer is 200 with an empty list, whatever the provider would say. |
| GetAccounts.FanOutComplete | supabase/functions/plaid-get-accounts/index.ts:59-103 | When every item succeeds, the body is the per-item lists concatenated in item order. Its length is the total number of provider accounts. |
| GetAccounts.FanOutTagged | supabase/functions/plaid-get-accounts/index.ts:59-103 | When every item succeeds, each account of the body is tagged with an item it came from and that item's institution. |
| GetAccounts.ItemFailureFailsRequest | supabase/functions/plaid-get-accounts/index.ts:59-110 | One failing item makes the whole request a 500. The message is that of a failing item. |
| GetTransactions.Window | supabase/functions/plaid-get-transactions/index.ts:31-35 | Each bound is its query parameter when truthy, else the default (30 days ago, today). |
| GetTransactions.BuildAccountMap | supabase/functions/plaid-get-transactions/index.ts:89-97 | The loop builds the last-write-wins lookup function. |
| GetTransactions.AccountMapDomain | supabase/functions/plaid-get-transactions/index.ts:89-97 | The lookup has a key exactly for each account id present. |
| GetTransactions.AccountMapLastWins | supabase/functions/plaid-get-transactions/index.ts:89-97 | The entry under an id is the last account with that id. |
| GetTransactions.MapTransaction | supabase/functions/plaid-get-transactions/index.ts:106-122 | Keeps id, account id, date, name, amount and currency. Adds the tags. Joins the account, or "Unknown Account" when it is not in the lookup. |
| GetTransactions.MapTransactions | supabase/functions/plaid-get-transactions/index.ts:106-122 | One mapped transaction per provider transaction, in order. |
| GetTransactions.NewestFirstOrders | supabase/functions/plaid-get-transactions/index.ts:129-131 | The newest-first comparator is a total preorder. |
| GetTransactions.GetTransactions | supabase/functions/plaid-get-transactions/index.ts:22-143 | Gives 401 without a session, 500 on a query error, and 200 with an empty list when there is no item. A failing item gives 500. On success the body is a permutation of all items' transactions, sorted newest first. |
| GetTransactions.AccountJoin | supabase/functions/plaid-get-transactions/index.ts:89-122 | A returned transaction keeps the provider amount and its item id. Its account summary is the last account with its id, or "Unknown Account" when none has it. |
| GetTransactions.ItemFailureFailsRequest | supabase/functions/plaid-get-transactions/index.ts:67-143 | A failing item fails the whole fetch. The error is that of the first failing item. |
| GetInvestments.ItemInvestments | supabase/functions/plaid-get-investments/index.ts:60-118 | Success gives the item's data. A failure gives the unknown institution and four empty lists for that item alone. |
| GetInvestments.FindSecurity | supabase/functions/plaid-get-investments/index.ts:140-153 | Finds a security when one with the holding's id exists, and none exactly when no security has that id. |
| GetInvestments.HoldingWithDetails | supabase/functions/plaid-get-investments/index.ts:140-153 | A holding keeps its fields and tags. It takes name, ticker and type from its security, or none when there is none. |
| GetInvestments.FormatItem | supabase/functions/plaid-get-investments/index.ts:131-180 | One item's lists: accounts and investment transactions tagged entry by entry, holdings joined, securities as they are. |
| GetInvestments.FormatInvestments | supabase/functions/plaid-get-investments/index.ts:124-180 | The `forEach` builds the merge function of all items. |
| GetInvestments.GetInvestments | supabase/functions/plaid-get-investments/index.ts:22-191 | Gives 401 and 500 as above, and the empty-list body when there is no item. Otherwise 200 with the merge of every item's data. Item failures never fail the request. |
| GetInvestments.MergedAppend | supabase/functions/plaid-get-investments/index.ts:164-179 | Merging two runs of items is their merges concatenated field by field. |
| GetInvestments.MergedCounts | supabase/functions/plaid-get-investments/index.ts:131-180 | Each merged list is as long as the items' lists together: nothing is dropped. |
| GetInvestments.MergedOrder | supabase/functions/plaid-get-investments/index.ts:164-179 | A later item's entries come after the earlier items', in each list. |
| GetInvestments.HoldingOrigin | supabase/functions/plaid-get-investments/index.ts:140-153 | Every merged holding is some item's holding, tagged with that item. |
| GetInvestments.EmptyItemContributesNothing | supabase/functions/plaid-get-investments/index.ts:164-179 | An item with four empty lists leaves the merge unchanged. |
| GetInvestments.FailedItemContributesNothing | supabase/functions/plaid-get-investments/index.ts:103-118 | An item whose calls fail adds nothing to the merged data. |
| GetLiabilities.ItemLiabilities | supabase/functions/plaid-get-liabilities/index.ts:59-102 | Success gives the item's data. A failure gives no accounts and no categories for that item alone. |
| GetLiabilities.FindAccount | supabase/functions/plaid-get-liabilities/index.ts:128-143 | Finds an account when one with the record's account id exists, and none exactly when none has it. |
| GetLiabilities.WithDetails | supabase/functions/plaid-get-liabilities/index.ts:128-143 | A record keeps its fields and tags. It takes name, mask and balances from its account, or none when there is none. |
| GetLiabilities.Category | supabase/functions/plaid-get-liabilities/index.ts:128-189 | An absent category gives no records. An absent or present one is joined record by record, in order. |
| GetLiabilities.FormatItem | supabase/functions/plaid-get-liabilities/index.ts:114-190 | Accounts are tagged entry by entry. Credit, mortgage and student records are joined. |
| GetLiabilities.FormatLiabilities | supabase/functions/plaid-get-liabilities/index.ts:107-190 | The loop builds the merge function of all items. |
| GetLiabilities.AddItem | supabase/functions/plaid-get-liabilities/index.ts:114-190 | One item adds its tagged accounts, and each category only when the item has it. |
| GetLiabilities.GetLiabilities | supabase/functions/plaid-get-liabilities/index.ts:22-201 | Gives 401 and 500 as above, and the empty body when there is no item. Otherwise 200 with the merge of every item's data. |
| GetLiabilities.MergedCounts | supabase/functions/plaid-get-liabilities/index.ts:114-190 | Each merged list is as long as the items' lists together, an absent category counting 0. |
| GetLiabilities.CreditOrigin | supabase/functions/plaid-get-liabilities/index.ts:128-143 | Every merged credit record is some item's credit record, tagged with that item. |
| GetLiabilities.MergedSnoc | supabase/functions/plaid-get-liabilities/index.ts:114-190 | One more item appends its formatted lists. |
| GetLiabilities.AppendAssociative | supabase/functions/plaid-get-liabilities/index.ts:114-190 | Field-wise concatenation is associative. |
| GetLiabilities.MergedAppend | supabase/functions/plaid-get-liabilities/index.ts:114-190 | Merging two runs of items is their merges concatenated. |
| GetLiabilities.FailedItemContributesNothing | supabase/functions/plaid-get-liabilities/index.ts:88-101 | An item whose calls fail adds nothing to the merged data. |
| ExchangeToken.LinkedAccount | supabase/functions/plaid-exchange-token/index.ts:94-106 | An account keeps the provider's id and name and the three balances, and carries the institution. It has no item id and no currency. |
| ExchangeToken.LinkedAccounts | supabase/functions/plaid-exchange-token/index.ts:74-106 | Success needs both lookups to succeed. It gives one linked account per provider account, in order. |
| ExchangeToken.Exchange | supabase/functions/plaid-exchange-token/index.ts:22-117 | Gives 401 and the table unchanged without a session. Gives 400 `missing_public_token` on a missing token. A failed exchange or insert gives 500 and no new row. On success exactly one active row is appended and the answer is 200 with the linked accounts or the lookup's error. |
| PlaidApi.PerItem | src/api/plaid-api.ts:71-79 | One call per item, in item order, with that item's access token. |
| PlaidApi.FanOut | src/api/plaid-api.ts:56-86 | A query error is rethrown. No items gives an empty list. Success holds exactly when every call succeeds, and then the result is their lists concatenated. A failure is some item's error. |
| PlaidApi.ExchangePublicToken | src/api/plaid-api.ts:27-53 | A failed exchange or insert is rethrown with the table unchanged. Success appends one active row and returns the item id. |
| PlaidApi.GetAccounts | src/api/plaid-api.ts:56-86 | No item gives an empty list. On success every item's account call succeeded and the result is their lists in item order. |
| PlaidApi.GetTransactions | src/api/plaid-api.ts:89-125 | The window goes unchanged to every item's call. On success the result is the items' lists in order. |
| PlaidApi.GetBalances | src/api/plaid-api.ts:128-158 | The same rules over the balance call. |
| PlaidContext.Read | src/context/PlaidContext.tsx:155-219 | A key that is absent or empty reads as nothing. A present key reads as its decoded value. |
| PlaidContext.PlaidProvider.IsConnected | src/context/PlaidContext.tsx:296 | Connected exactly when the token is a non-empty string. |
| PlaidContext.PlaidProvider.constructor | src/context/PlaidContext.tsx:131-291 | The provider after mounting is the initial state, then the first pass of the persistence effects, then the load effect with accounts applied last. |
| PlaidContext.PlaidProvider.SetAccessToken | src/context/PlaidContext.tsx:221-228 | The token is set. Its key is written when it is truthy and removed otherwise. |
| PlaidContext.PlaidProvider.SetConnectedAccounts | src/context/PlaidContext.tsx:230-248 | The accounts are set. Non-empty ones are stored and stamp `now` in state and in storage. An empty list removes a stored key. |
| PlaidContext.PlaidProvider.SetTransactions | src/context/PlaidContext.tsx:250-255 | The transactions are set and stored when non-empty. |
| PlaidContext.PlaidProvider.SetInvestments | src/context/PlaidContext.tsx:257-262 | The investments are set and stored when they have an account or a holding. |
| PlaidContext.PlaidProvider.SetLiabilities | src/context/PlaidContext.tsx:264-274 | The liabilities are set and stored when any of the four lists is non-empty. |
| PlaidContext.PlaidProvider.SetFinancialData | src/context/PlaidContext.tsx:276-284 | The summary is set and stored when present. |
| PlaidContext.PlaidProvider.SetLastUpdated | src/context/PlaidContext.tsx:286-291 | The instant is set and stored when present. |
| PlaidContext.AccessTokenRule | src/context/PlaidContext.tsx:221-228 | The token key holds the token exactly when the token is truthy. Nothing else changes. |
| PlaidContext.ConnectedAccountsRule | src/context/PlaidContext.tsx:230-248 | Non-empty accounts are stored and stamp `now`. Cleared accounts only drop their key, and leave the stamp and the stored instant as they were. |
| PlaidContext.WriteOnlyKeys | src/context/PlaidContext.tsx:250-284 | Transactions, investments, liabilities and the summary are written when worth storing and never removed. Each touches only its own key. |
| PlaidContext.PersistedValuesLoadBack | src/context/PlaidContext.tsx:155-291 | Under a round-tripping codec, a later mount reads back what each of the seven setters stores: a truthy token (nothing for any other token), non-empty accounts with their stamp (nothing for a cleared list), non-empty transactions, investments and liabilities worth storing, a summary and an instant. |
| PlaidContext.Load | src/context/PlaidContext.tsx:155-219 | The token is read exactly when its key is present, as stored. The instant is read exactly when its key is present. No other field is read from an absent or empty key. |
| PlaidContext.LoadIndependent | src/context/PlaidContext.tsx:161-168 | The accounts read depends on the accounts key alone. |
| PlaidContext.PlaidProvider.ApplyLoaded | src/context/PlaidContext.tsx:154-219 | The load effect's setters give the restore function of the loaded values, with accounts applied last. |
| PlaidContext.PlaidProvider.ApplyLoadedData | src/context/PlaidContext.tsx:170-218 | The five data keys' setters give the data restore function, in key order. |
| PlaidContext.RestoreDataFrame | src/context/PlaidContext.tsx:170-209 | Restoring the data keys sets each field to its loaded value when there is one, and leaves it otherwise. |
| PlaidContext.MountedState | src/context/PlaidContext.tsx:131-291 | Right after mounting, each field is its loaded value or its default. The stamp is `now` when stored accounts were restored non-empty. |
| UsePlaidApi.CalculateTotalAssets | src/hooks/usePlaidAPI.ts:249-271 | The two loops compute the total assets function. |
| UsePlaidApi.AssetsAreNonCreditBalances | src/hooks/usePlaidAPI.ts:249-271 | The assets are the sum over non-credit accounts of their current balances, plus the holdings' institution values. |
| UsePlaidApi.TotalAssets | src/hooks/usePlaidAPI.ts:249-271 | No contract of its own. CalculateTotalAssets computes it; AssetsAreNonCreditBalances and CreditAccountAddsNothing state its properties. |
| UsePlaidApi.CreditAccountAddsNothing | src/hooks/usePlaidAPI.ts:255 | A credit account leaves the assets unchanged. |
| UsePlaidApi.SumOwed | src/hooks/usePlaidAPI.ts:278-284 | One category's loop sums the magnitudes of the records' current balances. |
| UsePlaidApi.CalculateTotalLiabilities | src/hooks/usePlaidAPI.ts:274-305 | The three loops compute the total liabilities function. |
| UsePlaidApi.LiabilitiesNonNegative | src/hooks/usePlaidAPI.ts:274-305 | The liabilities are never negative. |
| UsePlaidApi.TotalLiabilities | src/hooks/usePlaidAPI.ts:274-305 | No contract of its own. CalculateTotalLiabilities computes it; LiabilitiesNonNegative states its sign. |
| UsePlaidApi.CalculateMonthlyFlow | src/hooks/usePlaidAPI.ts:308-329 | The loop puts each negative amount's magnitude in income and every other amount in expenses. |
| UsePlaidApi.FlowBuckets | src/hooks/usePlaidAPI.ts:308-329 | Both buckets are non-negative. Income minus expenses is minus the sum of the provider amounts. |
| UsePlaidApi.Summarize | src/hooks/usePlaidAPI.ts:205-223 | Net worth is assets minus liabilities and savings is income minus expenses. Liabilities, income and expenses are non-negative. Savings is minus the sum of the provider amounts. |
| UsePlaidApi.NothingLinkedGivesZeros | src/hooks/usePlaidAPI.ts:205-223 | With nothing linked every figure is 0. |
| UsePlaidApi.CheckingAndCardScenario | src/hooks/usePlaidAPI.ts:249-305 | Checking 1000 and a card at -200 give assets 1000, liabilities 200 and net worth 800. |
| UsePlaidApi.DepositAndPurchaseScenario | src/hooks/usePlaidAPI.ts:308-329 | A deposit of 500 and a purchase of 120 give income 500, expenses 120 and savings 380. |
| UsePlaidApi.InvestmentsEffectAsWritten | src/context/PlaidContext.tsx:257-262 | The persistence effect throws exactly on the zero-item body. Otherwise it behaves as the setter. |
| UsePlaidApi.ZeroItemInvestmentsThrow | src/hooks/usePlaidAPI.ts:140-142 | Storing the zero-item investments body makes the effect read `length` of undefined. |
| UsePlaidApi.NormalizeInvestments | src/hooks/usePlaidAPI.ts:140-142 | A full body is kept. The zero-item body becomes the four empty lists. |
| UsePlaidApi.NormalizedInvestmentsAreSafe | src/hooks/usePlaidAPI.ts:140-142 | The normalized value never makes the effect throw and has the same holdings. |
| UsePlaidApi.LiabilitiesEffectAsWritten | src/context/PlaidContext.tsx:264-274 | The effect throws exactly on the zero-item body. |
| UsePlaidApi.ZeroItemLiabilitiesThrow | src/hooks/usePlaidAPI.ts:171-173 | Storing the zero-item liabilities body makes the effect throw. |
| UsePlaidApi.NormalizeLiabilities | src/hooks/usePlaidAPI.ts:171-173 | A full body is kept. The zero-item body becomes the four empty lists. |
| UsePlaidApi.NormalizedLiabilitiesAreSafe | src/hooks/usePlaidAPI.ts:171-173 | The normalized value never throws and has the same liabilities total. |
| UsePlaidApi.TransactionsUrl | src/hooks/usePlaidAPI.ts:104-107 | The bare function name unless both dates are truthy. Otherwise the name followed by the two dates' query. |
| UsePlaidApi.TransactionsUrlQuery | src/hooks/usePlaidAPI.ts:104-107 | The URL has a query exactly when both dates are truthy. It then starts with the function name and ends with the end date. |
| UsePlaidApi.Settle | src/hooks/usePlaidAPI.ts:89-93 | A fetcher returns the body, or its empty default after a failure. |
| UsePlaidApi.ErrorAfter | src/hooks/usePlaidAPI.ts:90-92 | A failure sets the error to its message. A success leaves it. |
| UsePlaidApi.FailedPassStoresZeros | src/hooks/usePlaidAPI.ts:197-223 | When all four calls fail, the stored summary is all zeros, stamped with the pass's instant. The last error is the liabilities call's. |
| UsePlaidApi.PlaidApiHook.constructor | src/hooks/usePlaidAPI.ts:5-16 | The hook starts over its context with no error. |
| UsePlaidApi.PlaidApiHook.SettleAccounts | src/hooks/usePlaidAPI.ts:78-93 | The returned value, the error and the cache after an accounts call settles. |
| UsePlaidApi.PlaidApiHook.SettleTransactions | src/hooks/usePlaidAPI.ts:108-122 | The same for a transactions call. |
| UsePlaidApi.PlaidApiHook.SettleInvestments | src/hooks/usePlaidAPI.ts:132-153 | The same for an investments call. It returns the four empty lists after a failure. A success returns the body as received and stores its normalized form (the corrected half of the first Findings row). |
| UsePlaidApi.PlaidApiHook.SettleLiabilities | src/hooks/usePlaidAPI.ts:163-179 | The same for a liabilities call. A success returns the body as received and stores its normalized form (the corrected half of the second Findings row). |
| UsePlaidApi.PlaidApiHook.GetAccounts | src/hooks/usePlaidAPI.ts:75-97 | The error is cleared and then set by the outcome. A success stores the accounts. |
| UsePlaidApi.PlaidApiHook.GetTransactions | src/hooks/usePlaidAPI.ts:100-126 | The call is made on the URL the dates give. Then as for accounts. |
| UsePlaidApi.PlaidApiHook.GetInvestments | src/hooks/usePlaidAPI.ts:129-157 | As for accounts, with the investments default. The body is returned as received; the one stored is normalized. |
| UsePlaidApi.PlaidApiHook.GetLiabilities | src/hooks/usePlaidAPI.ts:160-183 | As for accounts, with the liabilities default. The body is returned as received; the one stored is normalized. |
| UsePlaidApi.PlaidApiHook.AwaitAll | src/hooks/usePlaidAPI.ts:196-203 | The four fetchers clear the error and settle in call order. The error is the pass's last failure and the cache is the four settled calls', with the investments and liabilities bodies normalized. |
| UsePlaidApi.CalculateSummary | src/hooks/usePlaidAPI.ts:205-221 | The three calculations give the summary function of the four settled values. |
| UsePlaidApi.AfterPassFrame | src/hooks/usePlaidAPI.ts:186-223 | A pass keeps the token and always stores a summary. It stamps the cache exactly when its accounts come back non-empty. |
| UsePlaidApi.InvestmentsSettled | src/hooks/usePlaidAPI.ts:139-153 | No contract of its own: the cache after an investments call, with the normalized body stored on success. SettleInvestments is proved to leave it. |
| UsePlaidApi.LiabilitiesSettled | src/hooks/usePlaidAPI.ts:170-181 | No contract of its own: the same for a liabilities call. SettleLiabilities is proved to leave it. |
| UsePlaidApi.AllSettled | src/hooks/usePlaidAPI.ts:196-203 | No contract of its own: the four settled calls applied in call order. AwaitAll is proved to leave it. |
| UsePlaidApi.PassSummary | src/hooks/usePlaidAPI.ts:205-212 | No contract of its own: the summary of the four settled values. CalculateSummary computes it; Summarize states its fields. |
| UsePlaidApi.PassError | src/hooks/usePlaidAPI.ts:196-203 | No contract of its own: the error after the four calls, the last failure's. AwaitAll and FailedPassStoresZeros state it. |
| UsePlaidApi.AfterPass | src/hooks/usePlaidAPI.ts:186-223 | No contract of its own: the settled cache with the pass's summary stored. AfterPassFrame, FailedPassStoresZeros and the wellness panel's pass lemmas state its properties. |
| UsePlaidApi.PlaidApiHook.FetchAll | src/hooks/usePlaidAPI.ts:186-246 | The transactions call uses the 30-day window. The cache is the pass's, the last error is the pass's, and the result holds the four values and the derived summary. |
| UsePlaidApi.PlaidApiHook.ExchangePublicToken | src/hooks/usePlaidAPI.ts:37-72 | A failure sets the error, returns nothing and leaves the cache. A success appends the accounts, sets the token flag, runs a refresh pass and returns the accounts. |
| TransactionPanel.FilteredIsMatchingSubsequence | src/components/dashboard/TransactionPanel.tsx:287-343 | A transaction is shown exactly when it matches every set filter, as often as it occurs. The shown list is a subsequence of the list. |
| TransactionPanel.EmptySearchMatchesAll | src/components/dashboard/TransactionPanel.tsx:289-298 | The empty search is a substring of everything. |
| TransactionPanel.NoFiltersShowsAll | src/components/dashboard/TransactionPanel.tsx:287-343 | With no filter set and a tab other than the four named ones, the whole list is shown. |
| TransactionPanel.TabsRestrict | src/components/dashboard/TransactionPanel.tsx:328-340 | The income, expenses and transfers tabs show only that type. The pending tab shows only pending transactions. |
| TransactionPanel.TotalsByType | src/components/dashboard/TransactionPanel.tsx:346-354 | Each total is a sum over the whole list in which other types count 0. The expenses are never negative, so the net cash flow is at most the income. |
| TransactionPanel.TransferCountsNowhere | src/components/dashboard/TransactionPanel.tsx:346-354 | A transfer changes neither total, nor the net cash flow. |
| TransactionPanel.DailySpending | src/components/dashboard/TransactionPanel.tsx:255-274 | The loop builds the buckets the reduction over the list gives, and the key order of first appearance. |
| TransactionPanel.BucketsOfDomain | src/components/dashboard/TransactionPanel.tsx:255-274 | A date has a bucket exactly when some transaction has that date. |
| TransactionPanel.BucketsOfContents | src/components/dashboard/TransactionPanel.tsx:255-274 | A date's bucket holds that date's transactions in order and the sum of their expense amounts. |
| TransactionPanel.BucketsDays | src/components/dashboard/TransactionPanel.tsx:255-274 | The key order lists exactly the dates that have buckets. |
| TransactionPanel.BucketsPartition | src/components/dashboard/TransactionPanel.tsx:255-274 | Every transaction is in exactly its own date's bucket. |
| TransactionPanel.DaysAreTheDates | src/components/dashboard/TransactionPanel.tsx:255-274 | The keys are duplicate-free and are exactly the dates present. |
| TransactionPanel.MaxDailySpending | src/components/dashboard/TransactionPanel.tsx:277-279 | At least 1, at least every day's total, and either 1 or one of the totals. |
| TransactionPanel.DayLookup | src/components/dashboard/TransactionPanel.tsx:408-411 | A day's transactions are exactly that date's, in order, and none for a date not present. |
| TransactionPanel.SortedUnique | src/components/dashboard/TransactionPanel.tsx:357-364 | The same values, each once, sorted. |
| Sorting.SortBy | src/components/dashboard/TransactionPanel.tsx:357-364 | A permutation of the input, of the same length. |
| Sorting.SortBySorted | src/components/dashboard/TransactionPanel.tsx:357-364 | Under a total preorder the copy is sorted. |
| Sorting.LexLeOrders | src/components/dashboard/TransactionPanel.tsx:357-364 | String order is a total preorder. |
| Sorting.SortInPlace | src/components/dashboard/BudgetPanel.tsx:456-458 | Under a total preorder the array ends sorted and holds the same elements. |
| Sorting.InsertAt | src/components/dashboard/BudgetPanel.tsx:456-458 | One insertion pass extends the sorted prefix by one element and keeps the elements. |
| TransactionPanel.Categories | src/components/dashboard/TransactionPanel.tsx:357-360 | Every category present, once each, sorted. |
| TransactionPanel.AccountNames | src/components/dashboard/TransactionPanel.tsx:361-364 | Every account name present, once each, sorted. |
| TransactionPanel.Panel.constructor | src/components/dashboard/TransactionPanel.tsx:234-250 | No filter set, the `all` tab, the list view. |
| TransactionPanel.Panel.SetTab | src/components/dashboard/TransactionPanel.tsx:523 | Only the tab changes. |
| TransactionPanel.Panel.ResetFilters | src/components/dashboard/TransactionPanel.tsx:367-374 | The six filters are cleared. The tab, view and month stay. |
| TransactionPanel.ResetShowsAll | src/components/dashboard/TransactionPanel.tsx:367-374 | After a reset on the `all` tab the whole list is shown. |
| TransactionPanel.Filtered | src/components/dashboard/TransactionPanel.tsx:287-343 | No contract of its own: the list filter by the query. FilteredIsMatchingSubsequence states what it keeps. |
| TransactionPanel.SearchHit | src/components/dashboard/TransactionPanel.tsx:289-296 | No contract of its own: the lowered search occurs in the lowered description, category or account. EmptySearchMatchesAll states the empty case. |
| TransactionPanel.Matches | src/components/dashboard/TransactionPanel.tsx:287-343 | No contract of its own: the search and the five filters together. FilteredIsMatchingSubsequence and TabsRestrict state its effect on the list. |
| TransactionPanel.TotalIncome | src/components/dashboard/TransactionPanel.tsx:346-348 | No contract of its own. TotalsByType and TransferCountsNowhere state its properties. |
| TransactionPanel.TotalExpenses | src/components/dashboard/TransactionPanel.tsx:350-352 | No contract of its own. TotalsByType and TransferCountsNowhere state its properties. |
| TransactionPanel.NetCashFlow | src/components/dashboard/TransactionPanel.tsx:354 | No contract of its own: income minus expenses. TotalsByType bounds it by the income; TransferCountsNowhere keeps it under a transfer. |
| TransactionPanel.TransactionsForDay | src/components/dashboard/TransactionPanel.tsx:408-411 | No contract of its own: the day's bucket, or nothing. DayLookup states what it returns. |
| TransactionPanel.Panel.CurrentQuery | src/components/dashboard/TransactionPanel.tsx:234-248 | No contract of its own: the six filters and the tab as one query. The constructor, SetTab and ResetFilters state the query they leave. |
| FinancialWellnessPanel.PassWithAccountsSettles | src/components/dashboard/FinancialWellnessPanel.tsx:38-42 | After a pass that returns accounts, the panel does not ask again. |
| FinancialWellnessPanel.PassWithoutAccountsAsksAgain | src/components/dashboard/FinancialWellnessPanel.tsx:38-42 | After a pass without accounts on an unstamped cache, the condition still holds and a summary is stored. |
| FinancialWellnessPanel.PercentagesFillTheBar | src/components/dashboard/FinancialWellnessPanel.tsx:55-66 | The two shares add to 100. With a positive total they are the proportions. With non-negative figures they lie in 0..100. |
| FinancialWellnessPanel.GroupAccountsByType | src/components/dashboard/FinancialWellnessPanel.tsx:69-78 | The loop builds the groups that the reduction over the accounts gives. No accounts give no groups. |
| FinancialWellnessPanel.GroupsOfDomain | src/components/dashboard/FinancialWellnessPanel.tsx:69-78 | A group exists exactly for each type present, `other` for no type. |
| FinancialWellnessPanel.GroupsOfContents | src/components/dashboard/FinancialWellnessPanel.tsx:69-78 | Each group holds that type's accounts in list order. |
| FinancialWellnessPanel.GroupsPartition | src/components/dashboard/FinancialWellnessPanel.tsx:69-78 | Every account is in exactly its type's group. An untyped one is in `other`. |
| FinancialWellnessPanel.GroupBalanceAdds | src/components/dashboard/FinancialWellnessPanel.tsx:81-85 | The balance of two joined groups is the sum of their balances. |
| FinancialWellnessPanel.CreditHeaderCountsBoth | src/components/dashboard/FinancialWellnessPanel.tsx:414-434 | The header is the credit group's magnitude plus the summary's liabilities, so it is at least the liabilities. |
| FinancialWellnessPanel.CashFlow | src/components/dashboard/FinancialWellnessPanel.tsx:689-692 | A plus sign exactly when the savings are non-negative, with the magnitude. |
| FinancialWellnessPanel.CashFlowRoundTrip | src/components/dashboard/FinancialWellnessPanel.tsx:689-692 | The sign and the magnitude give back the savings. |
| FinancialWellnessPanel.ShouldFetch | src/components/dashboard/FinancialWellnessPanel.tsx:38-42 | No contract of its own: connected, and the summary or the stamp missing. What a pass does to it is stated by PassWithAccountsSettles and PassWithoutAccountsAsksAgain. |
| FinancialWellnessPanel.AssetPercentage | src/components/dashboard/FinancialWellnessPanel.tsx:55-59 | No contract of its own: the asset share, 80 without a summary or a positive total. PercentagesFillTheBar states its properties. |
| FinancialWellnessPanel.LiabilityPercentage | src/components/dashboard/FinancialWellnessPanel.tsx:62-66 | No contract of its own: the liability share, 20 in the same cases. PercentagesFillTheBar states its properties. |
| FinancialWellnessPanel.TypeKey | src/components/dashboard/FinancialWellnessPanel.tsx:73 | Never empty. An account that has a type is grouped under it. |
| FinancialWellnessPanel.GroupBalance | src/components/dashboard/FinancialWellnessPanel.tsx:81-85 | No contract of its own: the current balances, 0 when missing. GroupBalanceAdds states that it adds over concatenation. |
| FinancialWellnessPanel.GroupOfType | src/components/dashboard/FinancialWellnessPanel.tsx:69-87 | Looking a type up in the groups gives that type's accounts in list order, and nothing when it has none. |
| FinancialWellnessPanel.ShowInvestments | src/components/dashboard/FinancialWellnessPanel.tsx:307-308 | No contract of its own. ShowInvestmentsIff states when it holds. |
| FinancialWellnessPanel.ShowInvestmentsIff | src/components/dashboard/FinancialWellnessPanel.tsx:307-308 | The Investments section is drawn exactly when some account has the investment type or the cache holds investment accounts. |
| FinancialWellnessPanel.InvestmentsHeader | src/components/dashboard/FinancialWellnessPanel.tsx:313-322 | No contract of its own: the investment group's balance plus the holdings' values. InvestmentsHeaderIsAssets relates it to the assets. |
| FinancialWellnessPanel.InvestmentsHeaderIsAssets | src/components/dashboard/FinancialWellnessPanel.tsx:313-322 | The Investments header is the total assets computed over the investment accounts alone, with the same holdings. |
| FinancialWellnessPanel.ShowCredit | src/components/dashboard/FinancialWellnessPanel.tsx:407-408 | No contract of its own. ShowCreditIff states when it holds. |
| FinancialWellnessPanel.ShowCreditIff | src/components/dashboard/FinancialWellnessPanel.tsx:407-408 | The Credit & Loans section is drawn exactly when some account has the credit type or the cache holds credit records. |
| FinancialWellnessPanel.CreditHeader | src/components/dashboard/FinancialWellnessPanel.tsx:413-434 | No contract of its own: the credit group's balance as a magnitude plus every record's. CreditHeaderCountsBoth relates it to the liabilities. |
| BudgetPanel.FindMonth | src/components/dashboard/BudgetPanel.tsx:99-100 | The first index with that month, or none when no entry has it. |
| BudgetPanel.CurrentBudget | src/components/dashboard/BudgetPanel.tsx:99-101 | The first entry of the selected month when there is one. Otherwise the first entry. Nothing exactly when the list is empty. |
| BudgetPanel.CategoryPercentage | src/components/dashboard/BudgetPanel.tsx:291-294 | At most 100. Finite with a non-zero budget. 100 when the spending reaches a positive budget. Non-negative for non-negative spending. |
| BudgetPanel.OverBudgetMeansOverspent | src/components/dashboard/BudgetPanel.tsx:295-296 | Over budget exactly when more was spent than budgeted. Then the bar is full when the budget is positive. |
| BudgetPanel.OverallLabel | src/components/dashboard/BudgetPanel.tsx:195-209 | "Over budget by" exactly when more was spent than budgeted, else "Remaining". |
| BudgetPanel.OverallAmount | src/components/dashboard/BudgetPanel.tsx:206-209 | The amount is what is left, or the overspend. |
| BudgetPanel.TrendData | src/components/dashboard/BudgetPanel.tsx:118-124 | One point per month, in reverse order. |
| BudgetPanel.PieChartData | src/components/dashboard/BudgetPanel.tsx:104-108 | One slice per category, in order, valued at its spending. |
| BudgetPanel.ComparisonData | src/components/dashboard/BudgetPanel.tsx:111-115 | One bar per category, in order, with budget and spending. |
| BudgetPanel.MoreSpentOrders | src/components/dashboard/BudgetPanel.tsx:457 | The spending comparator is a total preorder. |
| BudgetPanel.LessUsedOrders | src/components/dashboard/BudgetPanel.tsx:487 | The usage comparator, with a zero budget's infinities, is a total preorder. |
| BudgetPanel.AnalysisLists | src/components/dashboard/BudgetPanel.tsx:456-488 | Both sorts permute the same array. Top Spending is the first five by spending. Budget Efficiency is the first five by usage, and the array keeps that order. |
| BudgetPanel.TopAreBiggest | src/components/dashboard/BudgetPanel.tsx:456-458 | Nothing left out of Top Spending spent more than anything shown. |
| BudgetPanel.Remaining | src/components/dashboard/BudgetPanel.tsx:295 | No contract of its own: budget minus spending. OverBudgetMeansOverspent states its sign. |
| BudgetPanel.IsOverBudget | src/components/dashboard/BudgetPanel.tsx:296 | No contract of its own. OverBudgetMeansOverspent states when it holds. |
| BudgetPanel.MoreSpent | src/components/dashboard/BudgetPanel.tsx:457 | No contract of its own: the comparator `b.spent - a.spent`. MoreSpentOrders proves it a total preorder. |
| BudgetPanel.LessUsed | src/components/dashboard/BudgetPanel.tsx:487 | No contract of its own: the comparator on the spent-to-budget ratio. LessUsedOrders proves it a total preorder. |
| EquityCompensation.EquityTotals | src/components/dashboard/EquityCompensationWidget.tsx:105-113 | The total is the vested plus the unvested value. |
| EquityCompensation.UnvestedNonNegative | src/components/dashboard/EquityCompensationWidget.tsx:105-113 | The unvested value is non-negative when no grant's vested value exceeds its estimate. |
| EquityCompensation.GrantValue | src/components/dashboard/EquityCompensationWidget.tsx:105-108 | No contract of its own: a grant's estimated value. EquityTotals and UnvestedNonNegative state the totals. |
| EquityCompensation.VestedValue | src/components/dashboard/EquityCompensationWidget.tsx:109-112 | No contract of its own: vested shares times the current price. EquityTotals and UnvestedNonNegative state the totals. |
| EquityCompensation.Events | src/components/dashboard/EquityCompensationWidget.tsx:119-120 | No contract of its own: every grant's schedule, in grant order. ChartYears, ChartValues and ChartTotal state what the chart makes of it. |
| EquityCompensation.ChartOf | src/components/dashboard/EquityCompensationWidget.tsx:117-125 | The map has a value for exactly the years in its key order. |
| EquityCompensation.GenerateVestingData | src/components/dashboard/EquityCompensationWidget.tsx:116-131 | The nested loops give one point per key of the chart, in key order, with its value. |
| EquityCompensation.ChartYears | src/components/dashboard/EquityCompensationWidget.tsx:119-125 | The chart has a year exactly when some event falls in it. |
| EquityCompensation.ChartDistinct | src/components/dashboard/EquityCompensationWidget.tsx:119-125 | No year appears twice. |
| EquityCompensation.ChartValues | src/components/dashboard/EquityCompensationWidget.tsx:122-123 | A year's value is the total estimated value of its events. |
| EquityCompensation.ChartTotal | src/components/dashboard/EquityCompensationWidget.tsx:116-131 | The chart's values add up to the value of every event. |
| EquityCompensation.VestedPercentage | src/components/dashboard/EquityCompensationWidget.tsx:232-234 | Finite exactly when the grant has shares. Between 0 and 100 for a sane grant. 100 when fully vested. |
| EquityCompensation.UpcomingForGrant | src/components/dashboard/EquityCompensationWidget.tsx:336-347 | The first two events of the schedule that fall after today and on or before the day a year ahead (all of them when fewer than two): a prefix of those events, as long as two or their number. |
| EquityCompensation.AllFuture | src/components/dashboard/EquityCompensationWidget.tsx:411-422 | Every tagged event is after today. AllFutureComplete states which events these are. |
| EquityCompensation.FutureOfComplete | src/components/dashboard/EquityCompensationWidget.tsx:413-421 | A grant's list holds its grant's tag of every future event of its schedule, and nothing else. |
| EquityCompensation.AllFutureComplete | src/components/dashboard/EquityCompensationWidget.tsx:411-422 | The `flatMap` holds the tag of every future event of every grant, and each entry is such a tag. |
| EquityCompensation.SoonerFirstOrders | src/components/dashboard/EquityCompensationWidget.tsx:423-426 | The date comparator is a total preorder. |
| EquityCompensation.SortedFuture | src/components/dashboard/EquityCompensationWidget.tsx:411-426 | A permutation of the future events, soonest first. |
| EquityCompensation.UpcomingEvents | src/components/dashboard/EquityCompensationWidget.tsx:411-427 | The first five of the sorted future events (all of them when fewer than five): a prefix of the sorted list, as long as five or its length. |
| EquityCompensation.UpcomingAreSoonest | src/components/dashboard/EquityCompensationWidget.tsx:423-427 | Nothing left out is sooner than anything shown. |
| EquityCompensation.GrantTypeColor | src/components/dashboard/EquityCompensationWidget.tsx:168-183 | Gray exactly for a type other than the five. |
| DebtOptimization.HigherRateFirstOrders | src/components/dashboard/DebtOptimizationWidget.tsx:87-89 | The rate comparator is a total preorder. |
| DebtOptimization.SmallerBalanceFirstOrders | src/components/dashboard/DebtOptimizationWidget.tsx:92 | The balance comparator is a total preorder. |
| DebtOptimization.AvalancheDebts | src/components/dashboard/DebtOptimizationWidget.tsx:87-89 | A permutation of the debts, highest rate first. |
| DebtOptimization.SnowballDebts | src/components/dashboard/DebtOptimizationWidget.tsx:92 | A permutation of the debts, smallest balance first. |
| DebtOptimization.MethodsListEveryDebt | src/components/dashboard/DebtOptimizationWidget.tsx:87-92 | Both tabs list every debt as often as it occurs. The first line pays the highest rate or the smallest balance. |
| DebtOptimization.SnowballInterestSaved | src/components/dashboard/DebtOptimizationWidget.tsx:176 | Between 0 and the avalanche figure, and below it from 4 up. |
| DebtOptimization.SnowballTimeSaved | src/components/dashboard/DebtOptimizationWidget.tsx:182 | Between 0 and the avalanche figure, and below it from 6 up. |
| DebtOptimization.DefaultSnowballFigures | src/components/dashboard/DebtOptimizationWidget.tsx:82-84 | The default totals give 146030 and 78 months. |
| DebtOptimization.MethodDescription | src/components/dashboard/DebtOptimizationWidget.tsx:219-221 | The avalanche text exactly for "Avalanche", else the snowball text. |
| AccountSummary.SectionsPartition | src/components/dashboard/AccountSummaryWidget.tsx:85-91 | The three sections hold every account exactly once. |
| AccountSummary.SectionsAddUp | src/components/dashboard/AccountSummaryWidget.tsx:79-91 | The sections' balances add up to the total balance. |
| AccountSummary.SectionMember | src/components/dashboard/AccountSummaryWidget.tsx:85-91 | A section shows an account exactly when it is of that kind. |
| AccountSummary.FirstCredit | src/components/dashboard/AccountSummaryWidget.tsx:133 | A credit account from the list, and none exactly when there is none. |
| AccountSummary.FirstCreditHeadsSection | src/components/dashboard/AccountSummaryWidget.tsx:133 | The account found heads the credit section. |
| AccountSummary.Liabilities | src/components/dashboard/AccountSummaryWidget.tsx:152-154 | The first credit account's balance magnitude, or 0. |
| AccountSummary.Assets | src/components/dashboard/AccountSummaryWidget.tsx:130-134 | Assets minus liabilities is the total balance. |
| AccountSummary.OneCardSplitsTheTotal | src/components/dashboard/AccountSummaryWidget.tsx:130-154 | With one indebted card, assets are cash plus investments and liabilities are the card's debt. |
| AccountSummary.LaterCardsIgnored | src/components/dashboard/AccountSummaryWidget.tsx:152-154 | With several indebted cards, only the first counts. The figure is at most the credit section's header. |
| AccountSummary.ShowSectionIff | src/components/dashboard/AccountSummaryWidget.tsx:169-276 | A section is drawn exactly when an account of its kind exists. |
| AccountSummary.TotalBalance | src/components/dashboard/AccountSummaryWidget.tsx:79-82 | No contract of its own: every balance, credit ones included. SectionsAddUp and Assets state its properties. |
| AccountSummary.CreditHeader | src/components/dashboard/AccountSummaryWidget.tsx:265-276 | No contract of its own: the magnitude of the credit section's sum. LaterCardsIgnored bounds the Liabilities line by it. |
| AccountSummary.ShowSection | src/components/dashboard/AccountSummaryWidget.tsx:169-276 | No contract of its own. ShowSectionIff states when it holds. |

## Left out

- The link-token edge function and `createLinkToken`. They only relay a provider call, with nothing to decide.
- `isLoading` and the timing of concurrent calls. `Promise.all` settles in an order the network decides; the model settles the four fetchers in call order and the per-item calls in item order.
- The real JSON text. The codec is abstract. `JSON.parse` of stored data is typed by the decoder, so a stored value of the wrong shape is a decode failure.
- `new Date` of an unparsable string, and `toISOString` formatting. Instants are abstract timestamps, days are strings.
- React's batching and re-render order. Each effect runs right after its setter, in the order the setters are called.
- The outer `catch` of `fetchAllFinancialData`. Only a malformed list element could reach it, and the typed model has none.
- The transport of `supabase.functions.invoke`. Each call's outcome is an input.
- Number formatting (`toLocaleString`, `Intl.NumberFormat`, `toFixed`), colour scales and layout.
- The price history of the equity widget. It is random demo data.
- BudgetPanel.AnalysisLists: requires that no category has both budget and spending 0. The comparator then gives `NaN`, and a sort under an inconsistent comparator has no defined result.
- BudgetPanel.CurrentBudget: returns nothing for an empty list. The page would then throw on `undefined.categories`.
- FinancialWellnessPanel.GroupAccountsByType: the map has no key order.
- UsePlaidApi.PlaidApiHook.FetchAll: stores the normalized investments and liabilities bodies in the context, where the code stores the raw zero-item bodies (see Findings); it returns the bodies as received, as the code does, and the summary is the same either way, because the totals skip a missing `holdings`, `credit`, `mortgage` or `student` list. On the failure path it follows the code, not the stated intent that a failed category keeps the earlier summary. A failed fetcher returns its empty default, and the summary stored is computed from it.
- UsePlaidApi.PlaidApiHook.SettleInvestments: stores the normalized body and returns the body as received. The code stores the raw `{investments: []}` of a user with no item, and the persistence effect then throws (src/context/PlaidContext.tsx:259); the model proves that throw in UsePlaidApi.ZeroItemInvestmentsThrow but does not carry it into the state.
- UsePlaidApi.PlaidApiHook.SettleLiabilities: stores the normalized body and returns the body as received. The code stores the raw `{liabilities: []}`, and the effect then throws (src/context/PlaidContext.tsx:267); proved in UsePlaidApi.ZeroItemLiabilitiesThrow, not carried into the state.
- UsePlaidApi.PlaidApiHook.GetInvestments: stores the normalized body through SettleInvestments, with the same gap; the body it returns is the one received.
- UsePlaidApi.PlaidApiHook.GetLiabilities: stores the normalized body through SettleLiabilities, with the same gap; the body it returns is the one received.
- UsePlaidApi.PlaidApiHook.AwaitAll: the cache holds the normalized investments and liabilities bodies, with the same gap.
- UsePlaidApi.InvestmentsSettled: the cached value is the normalized body, as for SettleInvestments.
- UsePlaidApi.LiabilitiesSettled: the cached value is the normalized body, as for SettleLiabilities.
- TransactionPanel.FilteredIsMatchingSubsequence: the search lowers only the ASCII letters A to Z (Common.Lower, used by TransactionPanel.SearchHit). JavaScript's `toLowerCase` lowers every Unicode letter, so a search for "É" finds "école" in the code but not in the model.
- UsePlaidApi.PlaidApiHook.ExchangePublicToken: does not model the `if (data.accounts)` skip. The exchange outcome always carries a list. It returns the account list on success, where the code returns the whole response body, which also carries a success flag.
- UsePlaidApi.AfterPass: reads the clock once per pass. The code calls `new Date()` for the summary's `lastUpdated` and again in the accounts effect for the stamp; the model gives both the pass's one instant.
- ExchangeToken.Exchange: takes the request's `public_token` already parsed. The handler parses the body with `await req.json()` outside its `try` (supabase/functions/plaid-exchange-token/index.ts:30), so a malformed body escapes as an unhandled rejection rather than a response with an error body; that path is not modelled. The success body is modelled as the account list, without its `success: true` flag.
- Sorting.SortBy: is not proved stable. JavaScript's `sort` keeps equal elements in input order; the model states only the order and the permutation, so among ties (same-date events in EquityCompensation.UpcomingEvents, equal dates in GetTransactions.GetTransactions, equal rates or balances in DebtOptimization and BudgetPanel.AnalysisLists) which come first is not fixed.
- Sorting.SortInPlace: is not proved stable either, for the same reason.
- Sorting.LexLe: orders strings by Unicode scalar values, whereas JavaScript's `<` and the default `sort()` compare UTF-16 code units. The orders differ only between characters above U+FFFF and those from U+E000 to U+FFFF.
- The debt totals of the debt widget are its props, not sums over the debts, as in the source.

## Findings

| source | as written | input that shows it | evidently intended | confidence | as-written member | corrected member |
|---|---|---|---|---|---|---|
| src/context/PlaidContext.tsx:259 | `getInvestments` stores any truthy body (src/hooks/usePlaidAPI.ts:140-142). The persistence effect then reads `investments.accounts.length`. | A user with no active item: the edge function answers `{investments: []}`, which has no `accounts`, so the effect throws a TypeError. | The zero-item body is stored as the four empty lists. | not executed | UsePlaidApi.ZeroItemInvestmentsThrow | UsePlaidApi.NormalizedInvestmentsAreSafe |
| src/context/PlaidContext.tsx:267 | `getLiabilities` stores any truthy body (src/hooks/usePlaidAPI.ts:171-173). The effect reads `liabilities.accounts.length`. | A user with no active item: the answer is `{liabilities: []}`, so the effect throws a TypeError. | The zero-item body is stored as the four empty lists. | not executed | UsePlaidApi.ZeroItemLiabilitiesThrow | UsePlaidApi.NormalizedLiabilitiesAreSafe |

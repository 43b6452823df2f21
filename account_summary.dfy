/** The account summary widget: the total balance, the cash, investment and
    credit sections, and the Assets and Liabilities lines, which look only
    at the first credit account. Balances are in cents; credit balances are
    negative. */
module AccountSummary {
  import opened Common

  datatype Kind = Cash | Investment | Credit

  datatype Account = Account(id: string, name: string, kind: Kind, balance: int, change: real,
                             institution: Option<string>, lastUpdated: Option<string>)

  function Balance(a: Account): int
  {
    a.balance
  }

  /** `totalBalance`: every balance, credit ones included. */
  function TotalBalance(accounts: seq<Account>): int
  {
    Sum(accounts, Balance)
  }

  /** The section of one kind, in list order. */
  function OfKind(accounts: seq<Account>, k: Kind): seq<Account>
  {
    Filter(accounts, (a: Account) => a.kind == k)
  }

  /** The three sections hold every account exactly once. */
  lemma {:induction false} SectionsPartition(accounts: seq<Account>)
    ensures multiset(OfKind(accounts, Cash)) + multiset(OfKind(accounts, Investment))
            + multiset(OfKind(accounts, Credit)) == multiset(accounts)
  {
    if |accounts| > 0 {
      var init := accounts[..|accounts| - 1];
      var last := accounts[|accounts| - 1];
      SectionsPartition(init);
      assert accounts == init + [last];
      OfKindSnoc(init, last, Cash);
      OfKindSnoc(init, last, Investment);
      OfKindSnoc(init, last, Credit);
    }
  }

  /** One more account joins the section of its kind and no other. */
  lemma OfKindSnoc(init: seq<Account>, last: Account, k: Kind)
    ensures multiset(OfKind(init + [last], k))
            == multiset(OfKind(init, k)) + if last.kind == k then multiset{last} else multiset{}
  {
    assert (init + [last])[..|init|] == init;
  }

  /** The sections' balances add up to the total. */
  lemma {:induction false} SectionsAddUp(accounts: seq<Account>)
    ensures Sum(OfKind(accounts, Cash), Balance) + Sum(OfKind(accounts, Investment), Balance)
            + Sum(OfKind(accounts, Credit), Balance) == TotalBalance(accounts)
  {
    if |accounts| > 0 {
      var init := accounts[..|accounts| - 1];
      var last := accounts[|accounts| - 1];
      SectionsAddUp(init);
      assert OfKind(accounts, last.kind) == OfKind(init, last.kind) + [last];
      forall k | k != last.kind ensures OfKind(accounts, k) == OfKind(init, k) {
      }
      SumAppend(OfKind(init, last.kind), [last], Balance);
      assert Sum([last], Balance) == last.balance by {
        assert [last][..0] == [];
      }
    }
  }

  /** A section shows an account exactly when it is of that kind. */
  lemma SectionMember(accounts: seq<Account>, k: Kind, a: Account)
    ensures a in OfKind(accounts, k) <==> a in accounts && a.kind == k
  {
    FilterMember(accounts, (a: Account) => a.kind == k, a);
  }

  /** `accounts.find((a) => a.type === "credit")`. */
  function FirstCredit(accounts: seq<Account>): (r: Option<Account>)
    ensures r.Some? ==> r.value in accounts && r.value.kind == Credit
    ensures r.None? <==> forall a :: a in accounts ==> a.kind != Credit
  {
    if |accounts| == 0 then None
    else if accounts[0].kind == Credit then Some(accounts[0])
    else
      assert forall a :: a in accounts ==> a == accounts[0] || a in accounts[1..];
      FirstCredit(accounts[1..])
  }

  /** The account found is the first of the credit section. */
  lemma {:induction false} FirstCreditHeadsSection(accounts: seq<Account>)
    ensures FirstCredit(accounts) == if |OfKind(accounts, Credit)| > 0 then Some(OfKind(accounts, Credit)[0]) else None
  {
    if |accounts| > 0 {
      var head := [accounts[0]];
      assert accounts == head + accounts[1..];
      FilterAppend(head, accounts[1..], (a: Account) => a.kind == Credit);
      assert head[..0] == [];
      FirstCreditHeadsSection(accounts[1..]);
    }
  }

  /** The Liabilities line: `Math.abs(find(...)?.balance || 0)`. */
  function Liabilities(accounts: seq<Account>): (r: nat)
    ensures FirstCredit(accounts).None? ==> r == 0
    ensures FirstCredit(accounts).Some? ==> r == Abs(FirstCredit(accounts).value.balance)
  {
    var first := FirstCredit(accounts);
    Abs(if first.Some? then first.value.balance else 0)
  }

  /** The Assets line: the total with that amount added back. */
  function Assets(accounts: seq<Account>): (r: int)
    ensures r - Liabilities(accounts) == TotalBalance(accounts)
  {
    TotalBalance(accounts) + Liabilities(accounts)
  }

  /** With one card that is in debt, Assets is the cash and investments and
      Liabilities is the debt. */
  lemma OneCardSplitsTheTotal(accounts: seq<Account>)
    requires |OfKind(accounts, Credit)| == 1 && OfKind(accounts, Credit)[0].balance <= 0
    ensures Assets(accounts) == Sum(OfKind(accounts, Cash), Balance) + Sum(OfKind(accounts, Investment), Balance)
    ensures Liabilities(accounts) == Abs(Sum(OfKind(accounts, Credit), Balance))
  {
    SectionsAddUp(accounts);
    FirstCreditHeadsSection(accounts);
    var credit := OfKind(accounts, Credit);
    assert credit[..0] == [];
    assert Sum(credit, Balance) == credit[0].balance;
  }

  /** With several cards in debt, the Liabilities line shows only the
      first one's debt: it is at most the credit section's header. */
  lemma {:induction false} LaterCardsIgnored(accounts: seq<Account>)
    requires forall a :: a in OfKind(accounts, Credit) ==> a.balance <= 0
    ensures Liabilities(accounts) <= CreditHeader(accounts)
    ensures |OfKind(accounts, Credit)| > 0 ==> Liabilities(accounts) == Abs(OfKind(accounts, Credit)[0].balance)
  {
    FirstCreditHeadsSection(accounts);
    var credit := OfKind(accounts, Credit);
    if |credit| > 0 {
      var head := credit[..1];
      var rest := credit[1..];
      assert credit == head + rest;
      SumAppend(head, rest, Balance);
      assert head[..0] == [];
      assert forall a :: a in rest ==> a in credit;
      SumMonotone(rest, Balance, (a: Account) => 0);
      SumZero(rest);
    }
  }

  lemma {:induction false} SumZero(s: seq<Account>)
    ensures Sum(s, (a: Account) => 0) == 0
  {
    if |s| > 0 {
      SumZero(s[..|s| - 1]);
    }
  }

  /** The credit section's header: the magnitude of its balances' sum. */
  function CreditHeader(accounts: seq<Account>): nat
  {
    Abs(Sum(OfKind(accounts, Credit), Balance))
  }

  /** A section is drawn only when it has an account. */
  predicate ShowSection(accounts: seq<Account>, k: Kind)
  {
    |OfKind(accounts, k)| > 0
  }

  lemma ShowSectionIff(accounts: seq<Account>, k: Kind)
    ensures ShowSection(accounts, k) <==> exists a :: a in accounts && a.kind == k
  {
    if exists a :: a in accounts && a.kind == k {
      var a :| a in accounts && a.kind == k;
      SectionMember(accounts, k, a);
    }
    if ShowSection(accounts, k) {
      SectionMember(accounts, k, OfKind(accounts, k)[0]);
    }
  }
}

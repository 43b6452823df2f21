/** The liabilities edge function: for every active item, its accounts and
    its credit, mortgage and student-loan records, each record joined to
    the item's account it belongs to. An item whose provider calls fail
    contributes nothing instead of failing the request. */
module GetLiabilities {
  import opened Common
  import opened PlaidTypes
  import Provider
  import opened ItemStore

  const UnknownAccountName: string := "Unknown Account"

  /** What one item's handler returns. */
  datatype ItemData = ItemData(
    institution: string,
    itemId: string,
    accounts: seq<Provider.Account>,
    liabilities: Provider.Liabilities,
    error: Option<string>)

  /** `liabilities: {}`: no category present. */
  const NoCategories: Provider.Liabilities := Provider.Liabilities(None, None, None)

  function FetchItem(client: Provider.Client, item: ItemRow): Result<ItemData>
  {
    var institution :- Provider.InstitutionName(client, item.accessToken);
    var response :- client.liabilitiesGet(item.accessToken);
    Ok(ItemData(institution, item.itemId, response.accounts, response.liabilities, None))
  }

  /** One item's handler with its own catch. */
  function ItemLiabilities(client: Provider.Client, item: ItemRow): (d: ItemData)
    ensures d.itemId == item.itemId
    ensures FetchItem(client, item).Ok? ==> d == FetchItem(client, item).value
    ensures FetchItem(client, item).Err? ==>
      d == ItemData(Provider.UnknownInstitution, item.itemId, [], NoCategories, Some(FetchItem(client, item).error))
  {
    match FetchItem(client, item)
    case Ok(data) => data
    case Err(e) => ItemData(Provider.UnknownInstitution, item.itemId, [], NoCategories, Some(e))
  }

  /** `accounts.find(acc => acc.account_id === record.account_id)`. */
  function FindAccount(accounts: seq<Provider.Account>, record: Provider.Liability): (r: Option<Provider.Account>)
    ensures r.None? <==> forall i :: 0 <= i < |accounts| ==> record.accountId != Some(accounts[i].accountId)
    ensures r.Some? ==> exists i :: 0 <= i < |accounts| && accounts[i] == r.value
                          && record.accountId == Some(accounts[i].accountId)
                          && forall j :: 0 <= j < i ==> record.accountId != Some(accounts[j].accountId)
  {
    if |accounts| == 0 then None
    else if record.accountId == Some(accounts[0].accountId) then Some(accounts[0])
    else
      var r := FindAccount(accounts[1..], record);
      assert forall i :: 0 < i < |accounts| ==> accounts[i] == accounts[1..][i - 1];
      if r.Some? then
        assert exists i :: 0 <= i < |accounts| && accounts[i] == r.value
                          && record.accountId == Some(accounts[i].accountId)
                          && forall j :: 0 <= j < i ==> record.accountId != Some(accounts[j].accountId) by {
          var i :| 0 <= i < |accounts[1..]| && accounts[1..][i] == r.value
                   && record.accountId == Some(accounts[1..][i].accountId)
                   && forall j :: 0 <= j < i ==> record.accountId != Some(accounts[1..][j].accountId);
          assert accounts[i + 1] == r.value;
          forall j | 0 <= j < i + 1 ensures record.accountId != Some(accounts[j].accountId) {
            if j > 0 { assert accounts[j] == accounts[1..][j - 1]; }
          }
        }
        r
      else r
  }

  /** A record with its item's tags and its account's name, mask and
      balances; an unmatched record is kept with the unknown-account name. */
  function WithDetails(record: Provider.Liability, accounts: seq<Provider.Account>,
                       institution: string, itemId: string): (d: LiabilityDetail)
    ensures d.record == record && d.institution == institution && d.itemId == itemId
    ensures var a := FindAccount(accounts, record);
      && (a.Some? && a.value.name != "" ==> d.accountName == a.value.name)
      && (a.None? || a.value.name == "" ==> d.accountName == UnknownAccountName)
      && d.accountMask == (if a.Some? then a.value.mask else None)
      && d.balances == (if a.Some? then Some(a.value.balances) else None)
  {
    match FindAccount(accounts, record)
    case None => LiabilityDetail(record, institution, itemId, UnknownAccountName, None, None)
    case Some(a) =>
      LiabilityDetail(record, institution, itemId, if a.name != "" then a.name else UnknownAccountName,
                      a.mask, Some(a.balances))
  }

  /** The records of one category, joined; an absent category gives none. */
  function Category(records: Option<seq<Provider.Liability>>, d: ItemData): (r: seq<LiabilityDetail>)
    ensures records.None? ==> r == []
    ensures records.Some? ==> |r| == |records.value|
    ensures records.Some? ==>
      forall k :: 0 <= k < |r| ==> r[k] == WithDetails(records.value[k], d.accounts, d.institution, d.itemId)
  {
    if records.None? then []
    else seq(|records.value|, k requires 0 <= k < |records.value| =>
           WithDetails(records.value[k], d.accounts, d.institution, d.itemId))
  }

  /** The four lists one item adds. */
  function FormatItem(d: ItemData): (b: LiabilityBundle)
    ensures |b.accounts| == |d.accounts|
    ensures forall k :: 0 <= k < |d.accounts| ==> b.accounts[k] == TaggedAccount(d.accounts[k], d.institution, d.itemId)
  {
    LiabilityBundle(
      seq(|d.accounts|, k requires 0 <= k < |d.accounts| => TaggedAccount(d.accounts[k], d.institution, d.itemId)),
      Category(d.liabilities.credit, d),
      Category(d.liabilities.mortgage, d),
      Category(d.liabilities.student, d))
  }

  function Append(acc: LiabilityBundle, more: LiabilityBundle): LiabilityBundle
  {
    LiabilityBundle(acc.accounts + more.accounts, acc.credit + more.credit,
                    acc.mortgage + more.mortgage, acc.student + more.student)
  }

  /** The formatted data after the loop has seen every item of ds. */
  function Merged(ds: seq<ItemData>): LiabilityBundle
  {
    if |ds| == 0 then EmptyLiabilities
    else Append(Merged(ds[..|ds| - 1]), FormatItem(ds[|ds| - 1]))
  }

  /** The `forEach` over the items: accounts always, each category only
      when the item has it. */
  method FormatLiabilities(ds: seq<ItemData>) returns (f: LiabilityBundle)
    ensures f == Merged(ds)
  {
    f := EmptyLiabilities;
    var i := 0;
    while i < |ds|
      invariant 0 <= i <= |ds|
      invariant f == Merged(ds[..i])
    {
      assert ds[..i + 1][..i] == ds[..i];
      f := AddItem(f, ds[i]);
      i := i + 1;
    }
    assert ds[..i] == ds;
  }

  /** The body of the `forEach` for one item. */
  method AddItem(acc: LiabilityBundle, d: ItemData) returns (f: LiabilityBundle)
    ensures f == Append(acc, FormatItem(d))
  {
    f := acc.(accounts := acc.accounts + FormatItem(d).accounts);
    if d.liabilities.credit.Some? {
      f := f.(credit := f.credit + Category(d.liabilities.credit, d));
    } else {
      assert f.credit + [] == f.credit;
    }
    if d.liabilities.mortgage.Some? {
      f := f.(mortgage := f.mortgage + Category(d.liabilities.mortgage, d));
    } else {
      assert f.mortgage + [] == f.mortgage;
    }
    if d.liabilities.student.Some? {
      f := f.(student := f.student + Category(d.liabilities.student, d));
    } else {
      assert f.student + [] == f.student;
    }
  }

  /** The whole request. */
  method GetLiabilities(session: Option<string>, rows: seq<ItemRow>, queryError: Option<string>,
                        client: Provider.Client) returns (r: Response<LiabilitiesBody>)
    ensures session.None? ==> r == Response(401, Error(NotAuthenticated))
    ensures session.Some? && queryError.Some? ==> r == Response(500, Error(queryError.value))
    ensures session.Some? && queryError.None? && ActiveItems(rows, session.value) == []
            ==> r == Response(200, Data(NoLiabilityItems))
    ensures session.Some? && queryError.None? && ActiveItems(rows, session.value) != [] ==>
      var items := ActiveItems(rows, session.value);
      r == Response(200, Data(Liabilities(Merged(
             seq(|items|, i requires 0 <= i < |items| => ItemLiabilities(client, items[i]))))))
  {
    if session.None? {
      return Response(401, Error(NotAuthenticated));
    }
    var selected := SelectActive(rows, session.value, queryError);
    if selected.Err? {
      return Response(500, Error(selected.error));
    }
    var items := selected.value;
    if |items| == 0 {
      return Response(200, Data(NoLiabilityItems));
    }
    var ds := seq(|items|, i requires 0 <= i < |items| => ItemLiabilities(client, items[i]));
    var formatted := FormatLiabilities(ds);
    r := Response(200, Data(Liabilities(formatted)));
  }

  /** The number of records a category contributes: its length, or none
      when absent. */
  function CategorySize(records: Option<seq<Provider.Liability>>): nat
  {
    if records.Some? then |records.value| else 0
  }

  /** No account and no record is dropped: each merged list is as long as
      the items' lists together, an absent category counting zero. */
  lemma {:induction false} MergedCounts(ds: seq<ItemData>)
    ensures |Merged(ds).accounts| == Sum(ds, (d: ItemData) => |d.accounts|)
    ensures |Merged(ds).credit| == Sum(ds, (d: ItemData) => CategorySize(d.liabilities.credit))
    ensures |Merged(ds).mortgage| == Sum(ds, (d: ItemData) => CategorySize(d.liabilities.mortgage))
    ensures |Merged(ds).student| == Sum(ds, (d: ItemData) => CategorySize(d.liabilities.student))
  {
    if |ds| > 0 {
      MergedCounts(ds[..|ds| - 1]);
    }
  }

  /** Every merged credit record is some item's record, tagged with that item
      and joined against that item's accounts only. */
  lemma {:induction false} CreditOrigin(ds: seq<ItemData>, c: LiabilityDetail)
    requires c in Merged(ds).credit
    ensures exists i, k :: 0 <= i < |ds| && ds[i].liabilities.credit.Some? &&
              0 <= k < |ds[i].liabilities.credit.value| &&
              c == WithDetails(ds[i].liabilities.credit.value[k], ds[i].accounts, ds[i].institution, ds[i].itemId)
  {
    var init := ds[..|ds| - 1];
    var last := ds[|ds| - 1];
    if c in Merged(init).credit {
      CreditOrigin(init, c);
      var i, k :| 0 <= i < |init| && init[i].liabilities.credit.Some? &&
              0 <= k < |init[i].liabilities.credit.value| &&
              c == WithDetails(init[i].liabilities.credit.value[k], init[i].accounts, init[i].institution, init[i].itemId);
      assert init[i] == ds[i];
    } else {
      var cat := Category(last.liabilities.credit, last);
      var k :| 0 <= k < |cat| && cat[k] == c;
      assert c == WithDetails(ds[|ds| - 1].liabilities.credit.value[k], last.accounts, last.institution, last.itemId);
    }
  }

  lemma MergedSnoc(a: seq<ItemData>, x: ItemData)
    ensures Merged(a + [x]) == Append(Merged(a), FormatItem(x))
  {
    assert (a + [x])[..|a + [x]| - 1] == a;
  }

  lemma AppendAssociative(x: LiabilityBundle, y: LiabilityBundle, z: LiabilityBundle)
    ensures Append(Append(x, y), z) == Append(x, Append(y, z))
  {
    assert (x.accounts + y.accounts) + z.accounts == x.accounts + (y.accounts + z.accounts);
    assert (x.credit + y.credit) + z.credit == x.credit + (y.credit + z.credit);
    assert (x.mortgage + y.mortgage) + z.mortgage == x.mortgage + (y.mortgage + z.mortgage);
    assert (x.student + y.student) + z.student == x.student + (y.student + z.student);
  }

  lemma {:induction false} MergedAppend(a: seq<ItemData>, b: seq<ItemData>)
    ensures Merged(a + b) == Append(Merged(a), Merged(b))
  {
    if |b| == 0 {
      assert a + b == a;
      var m := Merged(a);
      assert m.accounts + [] == m.accounts && m.credit + [] == m.credit;
      assert m.mortgage + [] == m.mortgage && m.student + [] == m.student;
    } else {
      var init, x := b[..|b| - 1], b[|b| - 1];
      assert a + b == (a + init) + [x];
      assert b == init + [x];
      MergedAppend(a, init);
      MergedSnoc(a + init, x);
      MergedSnoc(init, x);
      AppendAssociative(Merged(a), Merged(init), FormatItem(x));
    }
  }

  /** Failure isolation: an item whose calls failed adds nothing, so the
      merged data equals the merge of the other items alone. */
  lemma FailedItemContributesNothing(client: Provider.Client, items: seq<ItemRow>, i: int)
    requires 0 <= i < |items|
    requires FetchItem(client, items[i]).Err?
    ensures var ds := seq(|items|, j requires 0 <= j < |items| => ItemLiabilities(client, items[j]));
      Merged(ds) == Merged(ds[..i] + ds[i + 1..])
  {
    var ds := seq(|items|, j requires 0 <= j < |items| => ItemLiabilities(client, items[j]));
    var a, b, x := ds[..i], ds[i + 1..], ds[i];
    assert FormatItem(x) == EmptyLiabilities;
    assert Merged(a + [x]) == Merged(a) by {
      assert (a + [x])[..|a + [x]| - 1] == a;
      var m := Merged(a);
      assert m.accounts + [] == m.accounts && m.credit + [] == m.credit;
      assert m.mortgage + [] == m.mortgage && m.student + [] == m.student;
    }
    SplitAt(ds, i);
    MergedAppend(a + [x], b);
    MergedAppend(a, b);
  }
}

/** The `plaid_items` table: one row per linked institution of a user. */
module ItemStore {
  import opened Common

  datatype ItemRow = ItemRow(userId: string, itemId: string, accessToken: string, status: string)

  const Active: string := "active"

  /** `.eq("user_id", userId).eq("status", "active")`, in stored order. */
  function ActiveItems(rows: seq<ItemRow>, userId: string): seq<ItemRow>
  {
    Filter(rows, (r: ItemRow) => r.userId == userId && r.status == Active)
  }

  /** The select as the edge functions run it; `queryError` is the store's
      failure, when it fails. */
  function SelectActive(rows: seq<ItemRow>, userId: string, queryError: Option<string>): (r: Result<seq<ItemRow>>)
    ensures queryError.Some? ==> r == Err(queryError.value)
    ensures queryError.None? ==> r.Ok? && forall x :: x in r.value <==> x in rows && x.userId == userId && x.status == Active
  {
    if queryError.Some? then Err(queryError.value)
    else
      assert forall x :: x in ActiveItems(rows, userId) <==> x in rows && x.userId == userId && x.status == Active by {
        forall x ensures x in ActiveItems(rows, userId) <==> x in rows && x.userId == userId && x.status == Active {
          FilterMember(rows, (r: ItemRow) => r.userId == userId && r.status == Active, x);
        }
      }
      Ok(ActiveItems(rows, userId))
  }

  /** The table itself, for the operations that insert into it. */
  class ItemsTable {
    var rows: seq<ItemRow>

    constructor (initial: seq<ItemRow>)
      ensures rows == initial
    {
      rows := initial;
    }

    /** `insert([row])`; `failure` is the store's error, when it refuses. */
    method Insert(row: ItemRow, failure: Option<string>) returns (error: Option<string>)
      modifies this
      ensures error == failure
      ensures rows == if failure.None? then old(rows) + [row] else old(rows)
    {
      error := failure;
      if failure.None? {
        rows := rows + [row];
      }
    }
  }
}

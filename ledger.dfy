/** The `notifications` table seen from the closing handler: every row whose
    `request_id` is the closed request, whatever its delivery status. */
module Ledger {
  import opened Records

  /** The rows the ledger query returns for one request. The query sets no
      order; the model returns rows in table order, and RowsForMultiplicity
      states what holds whatever the order. */
  function RowsFor(ledger: seq<Notification>, requestId: Id): (rows: seq<Notification>)
    ensures |rows| <= |ledger|
    ensures forall r :: r in rows <==> r in ledger && r.requestId == requestId
  {
    if ledger == [] then []
    else if ledger[0].requestId == requestId then [ledger[0]] + RowsFor(ledger[1..], requestId)
    else RowsFor(ledger[1..], requestId)
  }

  /** In the model's table order, rows appended later come back after the
      earlier ones. */
  lemma {:induction false} RowsForAppend(a: seq<Notification>, b: seq<Notification>, requestId: Id)
    ensures RowsFor(a + b, requestId) == RowsFor(a, requestId) + RowsFor(b, requestId)
  {
    if a == [] {
      assert a + b == b;
    } else {
      assert (a + b)[0] == a[0];
      assert (a + b)[1..] == a[1..] + b;
      RowsForAppend(a[1..], b, requestId);
    }
  }

  /** A batch written for one request comes back whole from the query for
      that request. */
  lemma {:induction false} RowsForOwnBatch(batch: seq<Notification>, requestId: Id)
    requires forall k :: 0 <= k < |batch| ==> batch[k].requestId == requestId
    ensures RowsFor(batch, requestId) == batch
  {
    if batch != [] {
      RowsForOwnBatch(batch[1..], requestId);
    }
  }

  /** No de-duplication and no status filter: a row of this request is
      returned as often as it is stored, whatever its delivery status. */
  lemma {:induction false} RowsForMultiplicity(ledger: seq<Notification>, requestId: Id, r: Notification)
    ensures multiset(RowsFor(ledger, requestId))[r] == if r.requestId == requestId then multiset(ledger)[r] else 0
  {
    if ledger != [] {
      assert ledger == [ledger[0]] + ledger[1..];
      RowsForMultiplicity(ledger[1..], requestId, r);
    }
  }
}

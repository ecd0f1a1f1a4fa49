/** The closure wave of the closing handler: each ledger row of the request
    is joined to its donor, and when the donor exists and has a non-empty
    phone number a "request fulfilled" line addressed to that phone is
    logged. The WhatsApp call is a mock: nothing is sent, and a
    ClosureMessage stands for one logged line. */
module Closure {
  import opened Records

  /** The donor row a ledger row's `donor_id` joins to, if any. */
  function FindDonor(donors: seq<Donor>, donorId: Id): (found: Option<Donor>)
    ensures found.Some? ==> found.value in donors && found.value.id == donorId
    ensures found.None? <==> forall d :: d in donors ==> d.id != donorId
  {
    if donors == [] then None
    else if donors[0].id == donorId then Some(donors[0])
    else FindDonor(donors[1..], donorId)
  }

  /** With unique donor ids the join finds exactly the donor with that id. */
  lemma {:induction false} FindDonorUnique(donors: seq<Donor>, d: Donor)
    requires UniqueIds(donors)
    requires d in donors
    ensures FindDonor(donors, d.id) == Some(d)
  {
    if donors[0] != d {
      assert donors[0].id != d.id by {
        var j :| 0 <= j < |donors| && donors[j] == d;
        assert j != 0;
      }
      assert UniqueIds(donors[1..]) by {
        forall i, j | 0 <= i < j < |donors[1..]|
          ensures donors[1..][i].id != donors[1..][j].id
        {
          assert donors[1..][i] == donors[i + 1] && donors[1..][j] == donors[j + 1];
        }
      }
      FindDonorUnique(donors[1..], d);
    }
  }

  /** The phone number of the joined donor, or "" when there is no such donor. */
  function JoinedPhone(donors: seq<Donor>, donorId: Id): Phone {
    match FindDonor(donors, donorId)
    case Some(d) => d.phone
    case None => ""
  }

  /** The guard of the closure loop: the joined donor exists and its phone
      number is truthy. */
  predicate Reachable(donors: seq<Donor>, donorId: Id) {
    JoinedPhone(donors, donorId) != ""
  }

  /** The lines the closure loop logs for the fetched rows, in row order. */
  function ClosureMessages(rows: seq<Notification>, donors: seq<Donor>, requestId: Id): (msgs: seq<ClosureMessage>)
    ensures |msgs| <= |rows|
  {
    if rows == [] then []
    else
      (if Reachable(donors, rows[0].donorId) then [ClosureMessage(JoinedPhone(donors, rows[0].donorId), requestId)] else [])
      + ClosureMessages(rows[1..], donors, requestId)
  }

  lemma {:induction false} ClosureMessagesAppend(a: seq<Notification>, b: seq<Notification>, donors: seq<Donor>, requestId: Id)
    ensures ClosureMessages(a + b, donors, requestId)
         == ClosureMessages(a, donors, requestId) + ClosureMessages(b, donors, requestId)
  {
    if a == [] {
      assert a + b == b;
    } else {
      assert (a + b)[0] == a[0];
      assert (a + b)[1..] == a[1..] + b;
      ClosureMessagesAppend(a[1..], b, donors, requestId);
    }
  }

  /** Every logged line is about this request and names the non-empty phone
      number of some donor row. */
  lemma {:induction false} ClosureMessagesSound(rows: seq<Notification>, donors: seq<Donor>, requestId: Id)
    ensures forall m :: m in ClosureMessages(rows, donors, requestId) ==>
      m.requestId == requestId && m.phone != "" && exists d :: d in donors && d.phone == m.phone
  {
    if rows != [] {
      ClosureMessagesSound(rows[1..], donors, requestId);
    }
  }

  /** When every row joins to a donor with a phone, each row yields its own
      line, in row order: a donor with several rows is logged once per row. */
  lemma {:induction false} EveryReachableRowLogged(rows: seq<Notification>, donors: seq<Donor>, requestId: Id)
    requires forall k :: 0 <= k < |rows| ==> Reachable(donors, rows[k].donorId)
    ensures |ClosureMessages(rows, donors, requestId)| == |rows|
    ensures forall k :: 0 <= k < |rows| ==>
      ClosureMessages(rows, donors, requestId)[k] == ClosureMessage(JoinedPhone(donors, rows[k].donorId), requestId)
  {
    if rows != [] {
      assert Reachable(donors, rows[0].donorId);
      EveryReachableRowLogged(rows[1..], donors, requestId);
    }
  }

  /** Rows whose donor is missing or has no phone number produce nothing. */
  lemma {:induction false} UnreachableRowsSilent(rows: seq<Notification>, donors: seq<Donor>, requestId: Id)
    requires forall k :: 0 <= k < |rows| ==> !Reachable(donors, rows[k].donorId)
    ensures ClosureMessages(rows, donors, requestId) == []
  {
    if rows != [] {
      assert !Reachable(donors, rows[0].donorId);
      UnreachableRowsSilent(rows[1..], donors, requestId);
    }
  }

  /** The delivery status of a row plays no part: rows naming the same donors
      in the same order produce the same lines. */
  lemma {:induction false} ClosureIgnoresStatus(rows: seq<Notification>, other: seq<Notification>, donors: seq<Donor>, requestId: Id)
    requires |rows| == |other|
    requires forall k :: 0 <= k < |rows| ==> rows[k].donorId == other[k].donorId
    ensures ClosureMessages(rows, donors, requestId) == ClosureMessages(other, donors, requestId)
  {
    if rows != [] {
      ClosureIgnoresStatus(rows[1..], other[1..], donors, requestId);
    }
  }

  /** The closure loop: one logged line per fetched row whose joined donor
      has a phone number, nothing for the others. */
  method LogClosureLines(rows: seq<Notification>, donors: seq<Donor>, requestId: Id)
    returns (logged: seq<ClosureMessage>)
    ensures logged == ClosureMessages(rows, donors, requestId)
  {
    logged := [];
    for i := 0 to |rows|
      invariant logged == ClosureMessages(rows[..i], donors, requestId)
    {
      var donor := FindDonor(donors, rows[i].donorId);
      if donor.Some? && donor.value.phone != "" {
        logged := logged + [ClosureMessage(donor.value.phone, requestId)];
      }
      assert rows[..i + 1] == rows[..i] + [rows[i]];
      ClosureMessagesAppend(rows[..i], [rows[i]], donors, requestId);
    }
    assert rows[..|rows|] == rows;
  }
}

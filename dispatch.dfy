/** The alert wave of the notification handler: one send attempt per matched
    donor, one result per attempt, in donor order. */
module Dispatch {
  import opened Records

  /** Delivery status of one attempted send. */
  function Classify(response: TransportResponse): (status: DeliveryStatus)
    ensures status != Skipped
    ensures status == Sent <==> response == Accepted
    ensures status == Failed <==> response == Rejected
    ensures status == Error <==> response == Threw
  {
    match response
    case Accepted => Sent
    case Rejected => Failed
    case Threw => Error
  }

  /** The result recorded for one donor: skipped without credentials,
      otherwise classified from what the transport did for that donor. */
  function Outcome(d: Donor, requestId: Id, creds: Credentials, transport: Donor -> TransportResponse): Notification
  {
    Notification(requestId, d.id, if Configured(creds) then Classify(transport(d)) else Skipped)
  }

  /** The results array the handler builds, one entry per matched donor. */
  function Outcomes(donors: seq<Donor>, requestId: Id, creds: Credentials, transport: Donor -> TransportResponse): (results: seq<Notification>)
    ensures |results| == |donors|
  {
    if donors == [] then []
    else [Outcome(donors[0], requestId, creds, transport)] + Outcomes(donors[1..], requestId, creds, transport)
  }

  /** The k-th result belongs to the k-th donor and to this request. */
  lemma {:induction false} OutcomeAt(donors: seq<Donor>, requestId: Id, creds: Credentials, transport: Donor -> TransportResponse, k: nat)
    requires k < |donors|
    ensures Outcomes(donors, requestId, creds, transport)[k] == Outcome(donors[k], requestId, creds, transport)
  {
    if k > 0 {
      OutcomeAt(donors[1..], requestId, creds, transport, k - 1);
    }
  }

  /** The attempts are independent: the results for a list of donors are
      the results for its first part followed by those for the rest. */
  lemma {:induction false} OutcomesAppend(a: seq<Donor>, b: seq<Donor>, requestId: Id, creds: Credentials, transport: Donor -> TransportResponse)
    ensures Outcomes(a + b, requestId, creds, transport)
         == Outcomes(a, requestId, creds, transport) + Outcomes(b, requestId, creds, transport)
  {
    if a == [] {
      assert a + b == b;
    } else {
      assert (a + b)[0] == a[0];
      assert (a + b)[1..] == a[1..] + b;
      OutcomesAppend(a[1..], b, requestId, creds, transport);
    }
  }

  /** Every result carries the request id and its donor's id, and is
      `skipped` exactly when the credentials are missing. */
  lemma ResultsDescribeDonors(donors: seq<Donor>, requestId: Id, creds: Credentials, transport: Donor -> TransportResponse)
    ensures forall k :: 0 <= k < |donors| ==>
      var r := Outcomes(donors, requestId, creds, transport)[k];
      && r.requestId == requestId
      && r.donorId == donors[k].id
      && (r.deliveryStatus == Skipped <==> !Configured(creds))
  {
    forall k | 0 <= k < |donors|
      ensures var r := Outcomes(donors, requestId, creds, transport)[k];
        && r.requestId == requestId
        && r.donorId == donors[k].id
        && (r.deliveryStatus == Skipped <==> !Configured(creds))
    {
      OutcomeAt(donors, requestId, creds, transport, k);
    }
  }

  /** One donor's failed or thrown send changes no other donor's result:
      two transports that agree on every donor but the k-th give the same
      results everywhere except at position k. */
  lemma FailureIsolated(donors: seq<Donor>, requestId: Id, creds: Credentials,
                        t1: Donor -> TransportResponse, t2: Donor -> TransportResponse, k: nat)
    requires k < |donors|
    requires forall j :: 0 <= j < |donors| && j != k ==> t1(donors[j]) == t2(donors[j])
    ensures forall j :: 0 <= j < |donors| && j != k ==>
      Outcomes(donors, requestId, creds, t1)[j] == Outcomes(donors, requestId, creds, t2)[j]
  {
    forall j | 0 <= j < |donors| && j != k
      ensures Outcomes(donors, requestId, creds, t1)[j] == Outcomes(donors, requestId, creds, t2)[j]
    {
      OutcomeAt(donors, requestId, creds, t1, j);
      OutcomeAt(donors, requestId, creds, t2, j);
    }
  }

  /** The two per-donor loops of the handler: without credentials every
      matched donor is recorded as skipped; with them each donor gets one
      send attempt whose response decides sent, failed or error. */
  method DispatchAlerts(matched: seq<Donor>, requestId: Id, creds: Credentials, transport: Donor -> TransportResponse)
    returns (results: seq<Notification>)
    ensures results == Outcomes(matched, requestId, creds, transport)
  {
    results := [];
    if !Configured(creds) {
      for i := 0 to |matched|
        invariant results == Outcomes(matched[..i], requestId, creds, transport)
      {
        results := results + [Notification(requestId, matched[i].id, Skipped)];
        assert matched[..i + 1] == matched[..i] + [matched[i]];
        OutcomesAppend(matched[..i], [matched[i]], requestId, creds, transport);
      }
    } else {
      for i := 0 to |matched|
        invariant results == Outcomes(matched[..i], requestId, creds, transport)
      {
        var status: DeliveryStatus;
        match transport(matched[i]) {
          case Accepted => status := Sent;
          case Rejected => status := Failed;
          case Threw => status := Error;
        }
        results := results + [Notification(requestId, matched[i].id, status)];
        assert matched[..i + 1] == matched[..i] + [matched[i]];
        OutcomesAppend(matched[..i], [matched[i]], requestId, creds, transport);
      }
    }
    assert matched[..|matched|] == matched;
  }

  /** Three matched donors and no credentials: three results, all skipped. */
  lemma ScenarioUnconfigured(d1: Donor, d2: Donor, d3: Donor, requestId: Id, transport: Donor -> TransportResponse)
    ensures
      var none := Credentials(None, None, None);
      Outcomes([d1, d2, d3], requestId, none, transport)
        == [Notification(requestId, d1.id, Skipped), Notification(requestId, d2.id, Skipped), Notification(requestId, d3.id, Skipped)]
  {
    var none := Credentials(None, None, None);
    OutcomeAt([d1, d2, d3], requestId, none, transport, 0);
    OutcomeAt([d1, d2, d3], requestId, none, transport, 1);
    OutcomeAt([d1, d2, d3], requestId, none, transport, 2);
  }

  /** With credentials, an accepted send and a rejected one are recorded as
      sent and failed, in donor order. */
  lemma ScenarioAcceptedThenRejected(d1: Donor, d2: Donor, requestId: Id, creds: Credentials, transport: Donor -> TransportResponse)
    requires Configured(creds)
    requires transport(d1) == Accepted && transport(d2) == Rejected
    ensures Outcomes([d1, d2], requestId, creds, transport)
         == [Notification(requestId, d1.id, Sent), Notification(requestId, d2.id, Failed)]
  {
    OutcomeAt([d1, d2], requestId, creds, transport, 0);
    OutcomeAt([d1, d2], requestId, creds, transport, 1);
  }
}

/** The two edge functions as methods of the store they read and write:
    `notify-donors` appends one ledger row per matched donor, and
    `close-request` closes a request and logs a closure line for each of its
    ledger rows whose donor has a phone number. */
module Handlers {
  import opened Records
  import opened Matching
  import opened Dispatch
  import opened Ledger
  import opened Closure

  /** Requests are stored under their own id, and a request carries a
      `closed_at` stamp exactly when its status is closed. */
  ghost predicate WellFormed(requests: map<Id, Request>) {
    forall k :: k in requests ==>
      requests[k].id == k && (requests[k].status == Closed <==> requests[k].closedAt.Some?)
  }

  /** The row update of the closing handler: status closed, `closed_at` now,
      whatever the request's current status. */
  function CloseRecord(r: Request, now: Time): (closed: Request)
    ensures closed.status == Closed && closed.closedAt == Some(now)
    ensures closed.(status := r.status, closedAt := r.closedAt) == r
  {
    r.(status := Closed, closedAt := Some(now))
  }

  /** Closing is not idempotent: closing an already closed request stamps
      it again with the new time. */
  lemma CloseAgainOverwrites(r: Request, first: Time, second: Time)
    requires first != second
    ensures CloseRecord(CloseRecord(r, first), second) == CloseRecord(r, second)
    ensures CloseRecord(CloseRecord(r, first), second) != CloseRecord(r, first)
  {
    assert CloseRecord(CloseRecord(r, first), second).closedAt == Some(second);
  }

  class Store {
    var donors: seq<Donor>
    var requests: map<Id, Request>
    var ledger: seq<Notification>

    ghost predicate Valid()
      reads this
    {
      WellFormed(requests)
    }

    constructor (donors: seq<Donor>, requests: map<Id, Request>, ledger: seq<Notification>)
      requires WellFormed(requests)
      ensures Valid()
      ensures this.donors == donors && this.requests == requests && this.ledger == ledger
    {
      this.donors := donors;
      this.requests := requests;
      this.ledger := ledger;
    }

    /** The alert handler. `input` is the request record in the call's body,
        `creds` the messaging credentials, `transport` what the messaging
        service does for each donor, `faults` the store calls that fail. */
    method NotifyDonors(input: Option<Request>, creds: Credentials, transport: Donor -> TransportResponse, faults: StoreFaults)
      returns (resp: Result<nat>)
      requires Valid()
      modifies this`ledger
      ensures Valid()
      ensures input.None? ==> resp == Err(NoRequestData) && ledger == old(ledger)
      ensures input.Some? && faults.donorRead ==> resp == Err(DonorReadFailed) && ledger == old(ledger)
      ensures input.Some? && !faults.donorRead ==>
        var matched := MatchDonors(donors, input.value.bloodGroupRequired);
        var results := Outcomes(matched, input.value.id, creds, transport);
        && resp == Ok(|matched|)
        && ledger == if faults.ledgerInsert then old(ledger) else old(ledger) + results
    {
      if input.None? {
        resp := Err(NoRequestData);
        return;
      }
      var request := input.value;
      if faults.donorRead {
        resp := Err(DonorReadFailed);
        return;
      }
      var matched := MatchDonors(donors, request.bloodGroupRequired);
      var results := DispatchAlerts(matched, request.id, creds, transport);
      if |results| > 0 {
        if !faults.ledgerInsert {
          ledger := ledger + results;
        }
      }
      resp := Ok(|results|);
    }

    /** The closing handler. `requestId` is the `request_id` of the call's
        body, `now` the time of the call; `notices` are the closure lines
        it logs. */
    method CloseRequest(requestId: Option<Id>, now: Time, faults: StoreFaults)
      returns (resp: Result<()>, notices: seq<ClosureMessage>)
      requires Valid()
      modifies this`requests
      ensures Valid()
      ensures !Truthy(requestId) ==>
        resp == Err(MissingRequestId) && requests == old(requests) && notices == []
      ensures Truthy(requestId) && faults.requestUpdate ==>
        resp == Err(UpdateFailed) && requests == old(requests) && notices == []
      ensures Truthy(requestId) && !faults.requestUpdate && requestId.value !in old(requests) ==>
        resp == Err(RequestNotFound) && requests == old(requests) && notices == []
      ensures Truthy(requestId) && !faults.requestUpdate && requestId.value in old(requests) ==>
        var id := requestId.value;
        && requests == old(requests)[id := CloseRecord(old(requests)[id], now)]
        && (if faults.ledgerRead then resp == Err(LedgerReadFailed) && notices == []
            else resp == Ok(()) && notices == ClosureMessages(RowsFor(ledger, id), donors, id))
    {
      notices := [];
      if !Truthy(requestId) {
        resp := Err(MissingRequestId);
        return;
      }
      var id := requestId.value;
      if faults.requestUpdate {
        resp := Err(UpdateFailed);
        return;
      }
      if id !in requests {
        resp := Err(RequestNotFound);
        return;
      }
      requests := requests[id := CloseRecord(requests[id], now)];
      if faults.ledgerRead {
        resp := Err(LedgerReadFailed);
        return;
      }
      var rows := RowsFor(ledger, id);
      notices := LogClosureLines(rows, donors, id);
      resp := Ok(());
    }
  }
}

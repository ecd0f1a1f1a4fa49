/** The two handlers in sequence: what the closure wave logs after an alert
    wave has written its ledger rows. */
module Pipeline {
  import opened Records
  import opened Matching
  import opened Dispatch
  import opened Ledger
  import opened Closure
  import opened Handlers

  /** One closure line per alerted donor that has a phone number, in
      alert order. */
  function PhonedDonors(alerted: seq<Donor>, requestId: Id): (msgs: seq<ClosureMessage>)
    ensures |msgs| <= |alerted|
  {
    if alerted == [] then []
    else
      (if alerted[0].phone != "" then [ClosureMessage(alerted[0].phone, requestId)] else [])
      + PhonedDonors(alerted[1..], requestId)
  }

  /** The rows of one alert wave lead the closure wave back to the same
      donors, each with a phone number once per row, whatever was recorded
      as its delivery status. */
  lemma {:induction false} AlertRowsReachAlertedDonors(alerted: seq<Donor>, donors: seq<Donor>, requestId: Id,
                                                       creds: Credentials, transport: Donor -> TransportResponse)
    requires UniqueIds(donors)
    requires forall d :: d in alerted ==> d in donors
    ensures ClosureMessages(Outcomes(alerted, requestId, creds, transport), donors, requestId) == PhonedDonors(alerted, requestId)
  {
    if alerted != [] {
      var rows := Outcomes(alerted, requestId, creds, transport);
      assert rows[1..] == Outcomes(alerted[1..], requestId, creds, transport);
      FindDonorUnique(donors, alerted[0]);
      assert rows[0].donorId == alerted[0].id;
      assert JoinedPhone(donors, rows[0].donorId) == alerted[0].phone;
      AlertRowsReachAlertedDonors(alerted[1..], donors, requestId, creds, transport);
    }
  }

  /** After an alert wave for a request, the closure wave for it logs the lines
      the earlier rows call for, followed by one line for every matched donor
      that has a phone number, in match order; neither the credentials nor
      the transport's responses change which phones are logged. */
  lemma ClosureFollowsAlert(prior: seq<Notification>, donors: seq<Donor>, group: BloodGroup, requestId: Id,
                            creds: Credentials, transport: Donor -> TransportResponse)
    requires UniqueIds(donors)
    ensures
      var matched := MatchDonors(donors, group);
      var batch := Outcomes(matched, requestId, creds, transport);
      ClosureMessages(RowsFor(prior + batch, requestId), donors, requestId)
        == ClosureMessages(RowsFor(prior, requestId), donors, requestId) + PhonedDonors(matched, requestId)
  {
    var matched := MatchDonors(donors, group);
    var batch := Outcomes(matched, requestId, creds, transport);
    RowsForAppend(prior, batch, requestId);
    ResultsDescribeDonors(matched, requestId, creds, transport);
    RowsForOwnBatch(batch, requestId);
    ClosureMessagesAppend(RowsFor(prior, requestId), batch, donors, requestId);
    AlertRowsReachAlertedDonors(matched, donors, requestId, creds, transport);
  }

  /** A stored request is alerted and then closed, with every store
      call succeeding: the closure wave logs one line for each matched donor
      that has a phone number. */
  method AlertThenClose(store: Store, request: Request, creds: Credentials, transport: Donor -> TransportResponse, now: Time)
    returns (matchedCount: Result<nat>, closed: Result<()>, notices: seq<ClosureMessage>)
    requires store.Valid() && UniqueIds(store.donors)
    requires request.id != "" && request.id in store.requests
    requires RowsFor(store.ledger, request.id) == []
    modifies store`ledger, store`requests
    ensures store.Valid()
    ensures store.ledger == old(store.ledger) + Outcomes(MatchDonors(store.donors, request.bloodGroupRequired), request.id, creds, transport)
    ensures store.requests == old(store.requests)[request.id := CloseRecord(old(store.requests)[request.id], now)]
    ensures matchedCount == Ok(|MatchDonors(store.donors, request.bloodGroupRequired)|)
    ensures closed == Ok(())
    ensures request.id in store.requests
    ensures store.requests[request.id].status == Closed && store.requests[request.id].closedAt == Some(now)
    ensures notices == PhonedDonors(MatchDonors(store.donors, request.bloodGroupRequired), request.id)
  {
    var ok := StoreFaults(false, false, false, false);
    ghost var prior := store.ledger;
    ghost var matched := MatchDonors(store.donors, request.bloodGroupRequired);
    ghost var batch := Outcomes(matched, request.id, creds, transport);
    matchedCount := store.NotifyDonors(Some(request), creds, transport, ok);
    assert store.ledger == prior + batch;
    closed, notices := store.CloseRequest(Some(request.id), now, ok);
    assert notices == ClosureMessages(RowsFor(prior + batch, request.id), store.donors, request.id);
    ClosureFollowsAlert(prior, store.donors, request.bloodGroupRequired, request.id, creds, transport);
    assert ClosureMessages(RowsFor(prior, request.id), store.donors, request.id) == [];
  }

  /** Closing a request a second time succeeds again: the second call
      overwrites `closed_at` with its own time and logs the same closure
      wave once more. */
  method CloseTwice(store: Store, requestId: Id, first: Time, second: Time)
    returns (firstResp: Result<()>, firstNotices: seq<ClosureMessage>, secondResp: Result<()>, secondNotices: seq<ClosureMessage>)
    requires store.Valid()
    requires requestId != "" && requestId in store.requests
    modifies store`requests
    ensures store.Valid()
    ensures firstResp == secondResp == Ok(())
    ensures store.requests == old(store.requests)[requestId := CloseRecord(old(store.requests)[requestId], second)]
    ensures requestId in store.requests && store.requests[requestId].closedAt == Some(second)
    ensures firstNotices == secondNotices == ClosureMessages(RowsFor(store.ledger, requestId), store.donors, requestId)
  {
    var ok := StoreFaults(false, false, false, false);
    firstResp, firstNotices := store.CloseRequest(Some(requestId), first, ok);
    secondResp, secondNotices := store.CloseRequest(Some(requestId), second, ok);
  }
}

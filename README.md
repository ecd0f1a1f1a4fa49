# Blood donation matching and notification pipeline

A Dafny model of the two Supabase edge functions of the blood-donation
service:

- `notify-donors` is called with a newly created blood request. It selects
  the active donors of the requested blood group. When all three messaging
  credentials are set it attempts one WhatsApp alert per donor and records
  its outcome (`sent`, `failed` or `error`); otherwise it attempts none and
  records every donor as `skipped`. It appends those outcomes to the `notifications`
  ledger and answers with the number of matched donors.
- `close-request` is called with a `request_id`. It marks the request
  `closed` with a `closed_at` stamp. It reads every ledger row of that
  request and, for each row whose donor has a phone number, logs a
  "request fulfilled" line addressed to that phone. The WhatsApp call for
  this closure wave is a mock: the handler sends nothing and only logs. The
  model's closure `notices` stand for those logged lines, one per row.

The store is a `Store` class with three fields, one per table: `donors`
(a sequence), `requests` (a map keyed by request id) and `ledger` (a
sequence of notification rows). The handlers are methods of that class.
Everything outside the store is a parameter:

- the messaging credentials (`Credentials`);
- what the transport does for each donor (`Donor -> TransportResponse`:
  `Accepted` for an ok response, `Rejected` for a non-ok one, `Threw` when
  the call throws);
- the current time (`now`);
- which store calls fail (`StoreFaults`).

Modules, one per component:

- `Records`: the rows and values.
- `Matching`: the donor query.
- `Dispatch`: the alert loop and its outcome classification.
- `Ledger`: the rows-for-a-request query.
- `Closure`: the donor join, the phone guard and the closure loop.
- `Handlers`: the `Store` class and the two handlers.
- `Pipeline`: the two handlers in sequence.

Behaviours of the code worth knowing:

- Closing is not idempotent. The update at
  `supabase/functions/close-request/index.ts:27-32` is not conditioned on the
  current status. Closing a closed request overwrites `closed_at` and logs
  the closure lines again (`Handlers.CloseAgainOverwrites`,
  `Pipeline.CloseTwice`).
- The closure wave targets every ledger row of the request, whatever its
  delivery status. It writes no ledger rows of its own.
- The alert sends run one after another, in donor order. The response
  reports only the count, not the outcome list.
- The ledger append is one insert statement. A failed insert is modelled
  as writing no rows, and the handler still answers with success.

## Model

| member | source | states |
|---|---|---|
| Matching.MatchDonors | supabase/functions/notify-donors/index.ts:39-43 | a donor is selected iff its blood group is the required one and it is active; never more rows than the table |
| Matching.MatchAppend | supabase/functions/notify-donors/index.ts:39-43 | in the model, where rows come back in table order, matching a concatenation is matching each part in turn |
| Matching.MatchMultiplicity | supabase/functions/notify-donors/index.ts:39-43 | an eligible row is selected exactly as often as it is stored; an ineligible row (inactive, or another group) never |
| Matching.ScenarioOnlyActiveSameGroup | supabase/functions/notify-donors/index.ts:39-43 | of an active O+ donor, an inactive O+ donor and an active A+ donor, an O+ request selects only the first |
| Dispatch.Classify | supabase/functions/notify-donors/index.ts:86-96 | an attempted send is `sent` iff the response is ok, `failed` iff it is not ok, `error` iff the call throws, and never `skipped` |
| Dispatch.Outcomes | supabase/functions/notify-donors/index.ts:48-98 | the results array has exactly one entry per matched donor |
| Dispatch.OutcomeAt | supabase/functions/notify-donors/index.ts:56-97 | the k-th result carries the request id and the k-th donor's id, with that donor's status |
| Dispatch.OutcomesAppend | supabase/functions/notify-donors/index.ts:53-97 | results for a list of donors are the results for its first part followed by those for the rest (in order, independently) |
| Dispatch.ResultsDescribeDonors | supabase/functions/notify-donors/index.ts:53-97 | every result carries the request id and its donor's id, and is `skipped` exactly when a credential is missing |
| Dispatch.FailureIsolated | supabase/functions/notify-donors/index.ts:65-97 | changing what the transport does for one donor changes no other donor's result |
| Dispatch.DispatchAlerts | supabase/functions/notify-donors/index.ts:48-98 | the two per-donor loops build exactly the results array, skipped without credentials, classified per response with them |
| Dispatch.ScenarioUnconfigured | supabase/functions/notify-donors/index.ts:53-59 | three matched donors and no credentials give three `skipped` results |
| Dispatch.ScenarioAcceptedThenRejected | supabase/functions/notify-donors/index.ts:86-92 | with credentials, an ok response then a non-ok response give `[sent, failed]` |
| Ledger.RowsFor | supabase/functions/close-request/index.ts:38-41 | a ledger row is fetched iff its request id is the closed request's, whatever its delivery status |
| Ledger.RowsForAppend | supabase/functions/close-request/index.ts:38-41 | in the model, where rows come back in table order, rows appended later are fetched after the earlier ones |
| Ledger.RowsForOwnBatch | supabase/functions/close-request/index.ts:38-41 | a batch whose rows all carry the request id is fetched whole (in the model's table order) |
| Ledger.RowsForMultiplicity | supabase/functions/close-request/index.ts:38-41 | no de-duplication: a row of the request is fetched as often as it is stored, any other row never |
| Closure.FindDonor | supabase/functions/close-request/index.ts:40-52 | the join returns a stored donor with the row's donor id, and nothing exactly when no donor has that id |
| Closure.FindDonorUnique | supabase/functions/close-request/index.ts:52 | with unique donor ids the join returns exactly the donor with that id |
| Closure.ClosureMessages | supabase/functions/close-request/index.ts:49-57 | the closure wave logs at most one line per fetched row |
| Closure.ClosureMessagesAppend | supabase/functions/close-request/index.ts:49-57 | the lines logged for a concatenation of rows are those for each part in turn |
| Closure.ClosureMessagesSound | supabase/functions/close-request/index.ts:53-54 | every logged line names the closed request and a non-empty phone number of a stored donor |
| Closure.EveryReachableRowLogged | supabase/functions/close-request/index.ts:49-57 | when every row joins to a donor with a phone, row k yields logged line k for that donor's phone; a donor with several rows gets one line per row |
| Closure.UnreachableRowsSilent | supabase/functions/close-request/index.ts:53 | rows whose donor is missing or has an empty phone produce no line |
| Closure.ClosureIgnoresStatus | supabase/functions/close-request/index.ts:49-57 | the delivery status of a row does not affect the closure lines |
| Closure.LogClosureLines | supabase/functions/close-request/index.ts:49-57 | the closure loop logs exactly the closure lines of the fetched rows |
| Handlers.CloseRecord | supabase/functions/close-request/index.ts:27-32 | the update sets status closed and closed_at to now and changes no other field |
| Handlers.CloseAgainOverwrites | supabase/functions/close-request/index.ts:27-32 | closing a closed request again replaces its closed_at with the new time |
| Handlers.Store.NotifyDonors | supabase/functions/notify-donors/index.ts:30-116 | no request data, or a donor-read error: error and no ledger write; otherwise success with the matched count, and the ledger gains exactly the results (nothing when the insert fails or there are none) |
| Handlers.Store.CloseRequest | supabase/functions/close-request/index.ts:20-57 | falsy id, update error or unknown id: error, no request changed, nothing logged; otherwise only that request is closed, and a ledger-read error fails after the update while success logs the closure lines of all its ledger rows; the ledger is never written; stored requests stay well formed |
| Pipeline.PhonedDonors | supabase/functions/close-request/index.ts:53 | at most one closure line per alerted donor |
| Pipeline.AlertRowsReachAlertedDonors | supabase/functions/close-request/index.ts:38-57 | the rows of an alert wave lead the closure wave back to the alerted donors that have a phone, once per row (in the model's table order), whatever their delivery status |
| Pipeline.ClosureFollowsAlert | supabase/functions/close-request/index.ts:38-57 | after an alert wave, the closure wave logs what earlier rows called for, then one line per matched donor with a phone, independently of credentials and transport responses |
| Pipeline.AlertThenClose | supabase/functions/close-request/index.ts:20-57 | alerting a stored request and then closing it, with the store healthy, appends exactly the alert results to the ledger, closes only that request at `now`, and logs one closure line for each matched donor with a phone; donors are untouched |
| Pipeline.CloseTwice | supabase/functions/close-request/index.ts:27-57 | both closes return success; the request map differs from the original only in that request, closed at the second time; both calls log the same closure lines for the unchanged ledger and donors |

## Left out

- HTTP serving is not modelled: CORS headers, `OPTIONS` handling, JSON encoding of bodies and responses, and status codes. Responses are `Ok`/`Err` values.
- Supabase client construction and environment lookups are not modelled. The three credentials are an input value, and the store is the `Store` object.
- The Twilio wire format is not modelled: URL, Basic authentication, form encoding and `fetch`. The transport is a per-donor response. A response body that cannot be parsed counts as a throw.
- Message text and the other console lines are not modelled. The one line the closure loop logs per reachable row (`supabase/functions/close-request/index.ts:54`) is modelled as a `ClosureMessage` holding only the phone and the request id; nothing is sent for it.
- The current time is the parameter `now`.
- The request body is parsed once into an optional request record. The second `req.json()` fallback is not modelled.
- Ledger rows do not model the store-assigned `id` and `created_at` columns.
- Error messages are not modelled, only which error occurs. The store reports zero updated rows as an update error; the model reports it as `RequestNotFound`. Both fail with nothing changed.
- The donor read never reports both no error and no data, so the `donors || []` fallback is not modelled.
- Neither store query (the donor query and the rows-for-a-request query) sets an order, so the store may return rows in any order. The model returns them in table (sequence) order, so the order of the results, of the appended ledger rows and of the closure notices is a property of the model only. `Matching.MatchMultiplicity` and `Ledger.RowsForMultiplicity` state what holds whatever the order: which rows are returned, and how often.
- Concurrency and atomic conditional updates are not modelled. The code has neither.
- The client pages (registration, request and status forms, routing) are not part of this model. They only fix the initial state: donors start active and requests start open.
- Ids and phone numbers are strings. "Falsy" means absent or empty.

/** Rows of the three store tables (donors, requests, notifications) and the
    values the two edge functions exchange with their collaborators. */
module Records {

  datatype Option<+T> = None | Some(value: T)

  /** Row identifiers and phone numbers are strings in the store. */
  type Id = string
  type Phone = string

  /** A timestamp, as produced by `new Date()` in the handler. */
  type Time = int

  /** The eight blood-group tokens offered by the registration and request forms. */
  datatype BloodGroup = APos | ANeg | BPos | BNeg | ABPos | ABNeg | OPos | ONeg

  /** A row of the `donors` table. */
  datatype Donor = Donor(
    id: Id,
    name: string,
    phone: Phone,
    bloodGroup: BloodGroup,
    city: string,
    isActive: bool)

  datatype RequestStatus = Open | Closed

  /** A row of the `requests` table. */
  datatype Request = Request(
    id: Id,
    receiverName: string,
    receiverPhone: Phone,
    bloodGroupRequired: BloodGroup,
    location: string,
    status: RequestStatus,
    createdAt: Time,
    closedAt: Option<Time>)

  /** The four values written to `notifications.delivery_status`. */
  datatype DeliveryStatus = Sent | Failed | Error | Skipped

  /** One result pushed by the alert loop, and the ledger row it becomes. */
  datatype Notification = Notification(requestId: Id, donorId: Id, deliveryStatus: DeliveryStatus)

  /** What the messaging transport did with one send: answered with an ok
      status, answered with a non-ok status, or threw. */
  datatype TransportResponse = Accepted | Rejected | Threw

  /** One "request fulfilled" line logged by the closure wave for a donor's
      phone; the closure wave only logs, it sends nothing. */
  datatype ClosureMessage = ClosureMessage(phone: Phone, requestId: Id)

  /** The messaging credentials read from the environment. */
  datatype Credentials = Credentials(accountSid: Option<string>, authToken: Option<string>, whatsappFrom: Option<string>)

  /** Which store operations fail on this call. */
  datatype StoreFaults = StoreFaults(donorRead: bool, ledgerInsert: bool, requestUpdate: bool, ledgerRead: bool)

  /** The error responses of the two handlers. */
  datatype HandlerError =
    | NoRequestData
    | DonorReadFailed
    | MissingRequestId
    | UpdateFailed
    | RequestNotFound
    | LedgerReadFailed

  datatype Result<+T> = Ok(value: T) | Err(error: HandlerError)

  /** JavaScript truthiness of an optional string: absent and "" are falsy. */
  predicate Truthy(s: Option<string>) {
    s.Some? && s.value != ""
  }

  /** The transport is configured only when all three credentials are truthy. */
  predicate Configured(c: Credentials) {
    Truthy(c.accountSid) && Truthy(c.authToken) && Truthy(c.whatsappFrom)
  }

  /** No two donor rows share an id (the table's primary key). */
  ghost predicate UniqueIds(donors: seq<Donor>) {
    forall i, j :: 0 <= i < j < |donors| ==> donors[i].id != donors[j].id
  }
}

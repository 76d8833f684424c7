/** The rows of the ledger's three tables and the conversion row sent to the platform. */
module Model {
  import opened Wrappers
  import opened Status
  import opened Consent
  import opened Identifiers

  type EventId = string

  /** Why a transition happened, kept structured instead of formatted into one column. */
  datatype Reason =
    | SchemaErrors(text: string)
    | ConsentBlocked(blocked: SuppressionReason)
    | FieldErrors(rejections: seq<FieldRejection>)
    | ReclaimedStale
    | TransientRequest(why: string)
    | RetryableRow(code: string)
    | PermanentRow(code: string)
    | PermanentRequest(why: string)
    | PoisonRequest(why: string, attempts: nat)
    | AttemptCeiling(attempts: nat)
    | ReplayedFrom(record: nat)

  datatype Conversion = Conversion(action: string, time: string, value: Option<string>, currency: Option<string>)

  /** The columns written when the row is inserted and never again. */
  datatype Facts = Facts(
    source: Source, sourceEventId: string, receivedAt: nat, conversion: Option<Conversion>,
    matchKeyType: Option<MatchKeyType>, clickId: Option<string>, consent: ConsentSignals)
  {
    /** A click id that is present and not the empty text. */
    predicate HasClickId() {
      clickId.Some? && clickId.value != ""
    }
  }

  /** One row of the transition log; no `from` marks the row's creation. */
  datatype LogEntry = LogEntry(from: Option<EventStatus>, to: EventStatus, reason: Option<Reason>, at: nat)

  /** An event row together with its transition log. */
  datatype Event = Event(
    facts: Facts, digests: Option<HashedIdentifiers>, status: EventStatus, statusReason: Option<Reason>,
    attemptCount: nat, lastAttemptAt: Option<nat>, log: seq<LogEntry>)

  datatype AddressKey =
    | HashedFirstName | HashedLastName | HashedStreetAddress | AddressCity | AddressState
    | AddressPostalCode | AddressCountryCode

  datatype UserIdentifier =
    | HashedEmail(digest: string)
    | HashedPhoneNumber(digest: string)
    | AddressInfo(fields: map<AddressKey, string>)

  /** The request row; an absent dictionary key is None, an absent identifier list is empty. */
  datatype ConversionRow = ConversionRow(
    conversionAction: string, conversionDateTime: string, orderId: EventId, conversionValue: Option<string>,
    currencyCode: Option<string>, gclid: Option<string>, userIdentifiers: seq<UserIdentifier>,
    consent: Option<ConsentSignals>)

  datatype FailureClass = Transient | Partial | Permanent | Poison

  datatype HistoryEntry = HistoryEntry(at: nat, status: EventStatus, reason: Option<Reason>)

  /** One dead-lettering. Its id is its position in the table. */
  datatype DeadLetter = DeadLetter(
    eventId: EventId, source: Source, conversionAction: Option<string>, deadLetteredAt: nat,
    failureClass: FailureClass, reason: Reason, errorCode: Option<string>, payload: ConversionRow,
    history: seq<HistoryEntry>, replayedAt: Option<nat>, replayCount: nat)
  {
    predicate Open() { replayedAt.None? }
  }

  /** A row the uploader owns for one cycle, with the request row built when it was claimed. */
  datatype Claimed = Claimed(eventId: EventId, attemptCount: nat, conversion: ConversionRow)

  /** What travels on the queue. */
  datatype Message = Message(eventId: EventId, identifiers: RawIdentifiers, enqueuedAt: nat)

  /** The platform's answer about one row of a request. */
  datatype RowResult = RowResult(index: nat, ok: bool, errorCode: Option<string>, message: Option<string>)

  datatype CycleReport = CycleReport(uploaded: nat, retryLater: nat, deadLettered: nat)

  /** A log as the dead-letter record keeps it. */
  function History(log: seq<LogEntry>): (h: seq<HistoryEntry>)
    ensures |h| == |log|
    ensures forall i :: 0 <= i < |log| ==> h[i] == HistoryEntry(log[i].at, log[i].to, log[i].reason)
  {
    seq(|log|, i requires 0 <= i < |log| => HistoryEntry(log[i].at, log[i].to, log[i].reason))
  }
}

/**
 * The ledger as a value: what each ledger call does to the tables, and what one transaction, a list
 * of such calls, does as a whole. A call that raises makes its whole transaction have no effect.
 */
module Ledger {
  import opened Wrappers
  import opened Status
  import opened Consent
  import opened Identifiers
  import opened Model

  datatype Db = Db(events: map<EventId, Event>, dead: seq<DeadLetter>) {
    predicate Has(id: EventId, status: EventStatus) {
      id in events && events[id].status == status
    }
  }

  /** A webhook that passed validation, in the one shape every source is mapped into. */
  datatype LeadEvent = LeadEvent(
    eventId: EventId, source: Source, sourceEventId: string, conversion: Conversion, clickId: Option<string>,
    identifiers: RawIdentifiers, consent: ConsentSignals)
  {
    function MatchKey(): MatchKeyType {
      if clickId.Some? && clickId.value != "" then ClickId else UserIdentifiers
    }

    function FactsAt(now: nat): Facts {
      Facts(source, sourceEventId, now, Some(conversion), Some(MatchKey()), clickId, consent)
    }
  }

  /** What one call does to one existing event row. */
  datatype Change =
    | Suppress(blocked: SuppressionReason)
    | Reject(rejections: seq<FieldRejection>)
    | Process(digests: HashedIdentifiers)
    | Claim
    | RecordRetry(cause: string)
    | MarkUploaded
    | MarkRetryable(code: string)
    | DeadLetterRow(failureClass: FailureClass, reason: Reason, errorCode: Option<string>, payload: ConversionRow)

  /** One ledger call, or an assertion of the caller that fails in the middle of its transaction. */
  datatype Op =
    | InsertValidated(lead: LeadEvent, at: nat)
    | InsertRejected(id: EventId, source: Source, sourceEventId: string, errors: string, at: nat)
    | Update(id: EventId, change: Change, at: nat)
    | Replay(record: nat, at: nat)
    | Abort

  /** Move an event along the table, with its log line; None is the IllegalTransition exception. */
  function Transition(e: Event, to: EventStatus, reason: Option<Reason>, now: nat): Option<Event> {
    if to !in Allowed(e.status) then None
    else Some(e.(status := to, statusReason := reason,
                 log := e.log + [LogEntry(Some(e.status), to, reason, now)]))
  }

  function Created(facts: Facts, now: nat): Event {
    Event(facts, None, Received, None, 0, None, [LogEntry(None, Received, None, now)])
  }

  function Attempted(e: Event, now: nat): Event {
    e.(attemptCount := e.attemptCount + 1, lastAttemptAt := Some(now))
  }

  function Reclaimed(e: Event, now: nat): Event {
    Attempted(e.(log := e.log + [LogEntry(Some(e.status), e.status, Some(ReclaimedStale), now)]), now)
  }

  function AttemptedOpt(e: Option<Event>, now: nat): Option<Event> {
    match e case Some(x) => Some(Attempted(x, now)) case None => None
  }

  /** The event after the change, or None when the change is an illegal transition. */
  function Changed(e: Event, change: Change, now: nat): Option<Event> {
    match change
    case Suppress(blocked) => Transition(e, Suppressed, Some(ConsentBlocked(blocked)), now)
    case Reject(rejections) => Transition(e, Rejected, Some(FieldErrors(rejections)), now)
    case Process(digests) => Transition(e.(digests := Some(digests)), Processed, None, now)
    case Claim =>
      if e.status != Uploading then AttemptedOpt(Transition(e, Uploading, None, now), now)
      else Some(Reclaimed(e, now))
    case RecordRetry(cause) =>
      (match Transition(e, FailedRetryable, Some(TransientRequest(cause)), now)
       case Some(failed) => AttemptedOpt(Transition(failed, Uploading, None, now), now)
       case None => None)
    case MarkUploaded => Transition(e, Uploaded, None, now)
    case MarkRetryable(code) => Transition(e, FailedRetryable, Some(RetryableRow(code)), now)
    case DeadLetterRow(_, reason, _, _) => Transition(e, DeadLettered, Some(reason), now)
  }

  /** Back to QUEUED with a fresh attempt budget. */
  function Requeued(e: Event, record: nat, now: nat): Option<Event> {
    match Transition(e, Queued, Some(ReplayedFrom(record)), now)
    case Some(queued) => Some(queued.(attemptCount := 0, lastAttemptAt := None))
    case None => None
  }

  /** The row of a freshly validated lead: created, validated and queued at once. */
  function QueuedEvent(facts: Facts, now: nat): Event {
    Transition(Transition(Created(facts, now), Validated, None, now).value, Queued, None, now).value
  }

  /** The columns of a request that failed validation: nothing is known of it but its id. */
  function BareFacts(source: Source, sourceEventId: string, now: nat): Facts {
    Facts(source, sourceEventId, now, None, None, None, ConsentSignals(None, None))
  }

  /** The row of a request that failed validation. */
  function RejectedEvent(source: Source, sourceEventId: string, errors: string, now: nat): Event {
    Transition(Created(BareFacts(source, sourceEventId, now), now), Rejected, Some(SchemaErrors(errors)), now).value
  }

  /** The dead-letter record of an event that has just become DEAD_LETTERED. */
  function RecordOf(id: EventId, e: Event, change: Change, now: nat): DeadLetter
    requires change.DeadLetterRow?
  {
    DeadLetter(id, e.facts.source,
               match e.facts.conversion case Some(c) => Some(c.action) case None => None,
               now, change.failureClass, change.reason, change.errorCode, change.payload, History(e.log), None, 0)
  }

  /** The event of an open record that is still DEAD_LETTERED; otherwise replaying it does nothing. */
  predicate CanReplay(db: Db, record: nat) {
    record < |db.dead| && db.dead[record].Open() && db.Has(db.dead[record].eventId, DeadLettered)
  }

  /** One call on the tables; None is an exception. */
  function Step(db: Db, op: Op): Option<Db> {
    match op
    case Abort => None
    case InsertValidated(lead, at) =>
      if lead.eventId in db.events then Some(db)
      else Some(db.(events := db.events[lead.eventId := QueuedEvent(lead.FactsAt(at), at)]))
    case InsertRejected(id, source, sourceEventId, errors, at) =>
      if id in db.events then Some(db)
      else Some(db.(events := db.events[id := RejectedEvent(source, sourceEventId, errors, at)]))
    case Update(id, change, at) =>
      if id !in db.events then None else
      (match Changed(db.events[id], change, at)
       case None => None
       case Some(e) =>
         Some(Db(db.events[id := e],
                 if change.DeadLetterRow? then db.dead + [RecordOf(id, e, change, at)] else db.dead)))
    case Replay(record, at) =>
      if record >= |db.dead| then None
      else if !CanReplay(db, record) then Some(db)
      else
        var row := db.dead[record];
        match Requeued(db.events[row.eventId], record, at)
        case None => None
        case Some(e) =>
          Some(Db(db.events[row.eventId := e],
                  db.dead[record := row.(replayedAt := Some(at), replayCount := row.replayCount + 1)]))
  }

  /** One transaction: every call in order, or nothing at all. */
  function Run(db: Db, ops: seq<Op>): Option<Db>
    decreases |ops|
  {
    if ops == [] then Some(db)
    else match Step(db, ops[0]) case None => None case Some(next) => Run(next, ops[1..])
  }

  lemma {:induction false} RunConcat(db: Db, a: seq<Op>, b: seq<Op>)
    ensures Run(db, a + b) == match Run(db, a) case None => None case Some(mid) => Run(mid, b)
    decreases |a|
  {
    if a == [] {
      assert a + b == b;
    } else {
      assert (a + b)[1..] == a[1..] + b;
      match Step(db, a[0]) {
        case None =>
        case Some(next) => RunConcat(next, a[1..], b);
      }
    }
  }

  // --- Which rows the uploader may claim ---

  /** Processed, or due for another attempt, or left in UPLOADING for so long that its owner must be gone. */
  predicate Eligible(e: Event, now: nat, retryAfter: nat, staleAfter: nat) {
    || e.status == Processed
    || (e.status == FailedRetryable && e.lastAttemptAt.Some? && e.lastAttemptAt.value + retryAfter <= now)
    || (e.status == Uploading && e.lastAttemptAt.Some? && e.lastAttemptAt.value + staleAfter <= now)
  }

  predicate Claimable(events: map<EventId, Event>, id: EventId, now: nat, retryAfter: nat, staleAfter: nat,
                      locked: set<EventId>)
  {
    id in events && id !in locked && Eligible(events[id], now, retryAfter, staleAfter)
  }

  /** The claim query: the `limit` claimable rows received first, skipping rows another transaction locked. */
  ghost predicate IsSelection(events: map<EventId, Event>, now: nat, limit: nat, retryAfter: nat, staleAfter: nat,
                              locked: set<EventId>, ids: seq<EventId>)
  {
    && |ids| <= limit
    && (forall i :: 0 <= i < |ids| ==> Claimable(events, ids[i], now, retryAfter, staleAfter, locked))
    && (forall i, j :: 0 <= i < j < |ids| ==>
          ids[i] != ids[j] && events[ids[i]].facts.receivedAt <= events[ids[j]].facts.receivedAt)
    && (forall id :: Claimable(events, id, now, retryAfter, staleAfter, locked) && id !in ids ==>
          |ids| == limit
          && forall i :: 0 <= i < |ids| ==> events[ids[i]].facts.receivedAt <= events[id].facts.receivedAt)
  }

  /** The stuck-event query: queued, and received before the threshold, oldest first. */
  ghost predicate IsStuckList(events: map<EventId, Event>, olderThan: int, ids: seq<EventId>) {
    && (forall id :: id in ids
          <==> id in events && events[id].status == Queued && events[id].facts.receivedAt < olderThan)
    && (forall i, j :: 0 <= i < j < |ids| ==>
          ids[i] != ids[j] && events[ids[i]].facts.receivedAt <= events[ids[j]].facts.receivedAt)
  }
}

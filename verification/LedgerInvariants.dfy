/** What every ledger call keeps, and therefore every transaction and every run. */
module LedgerInvariants {
  import opened Wrappers
  import opened Status
  import opened Identifiers
  import opened Model
  import opened Ledger

  // --- One event row and its log ---

  /** A step of the table, or the self-loop that a stale re-claim writes. */
  predicate IsLegalEntry(x: LogEntry) {
    x.from.Some? &&
    (x.to in Allowed(x.from.value)
     || (x.from.value == Uploading && x.to == Uploading && x.reason == Some(ReclaimedStale)))
  }

  /** A log that starts with the row's creation and then moves step by legal step. */
  predicate IsAuditTrail(log: seq<LogEntry>) {
    && log != [] && log[0].from == None && log[0].to == Received
    && forall i :: 1 <= i < |log| ==> log[i].from == Some(log[i - 1].to) && IsLegalEntry(log[i])
  }

  /** How many attempts the log shows since the event was last queued. */
  function AttemptsIn(log: seq<LogEntry>): nat {
    if log == [] then 0
    else
      var last := |log| - 1;
      if log[last].to == Queued then 0
      else AttemptsIn(log[..last]) + if log[last].to == Uploading then 1 else 0
  }

  /** When the latest of those attempts started. */
  function LastAttemptIn(log: seq<LogEntry>): Option<nat> {
    if log == [] then None
    else
      var last := |log| - 1;
      if log[last].to == Queued then None
      else if log[last].to == Uploading then Some(log[last].at)
      else LastAttemptIn(log[..last])
  }

  /** Why the row is in its status: the reason of the line that brought it there, re-claims aside. */
  function ReasonIn(log: seq<LogEntry>): Option<Reason> {
    if log == [] then None
    else
      var last := |log| - 1;
      if log[last].from == Some(log[last].to) then ReasonIn(log[..last]) else log[last].reason
  }

  /** The states of an event whose digests have been written. */
  const HASHED_STATES: set<EventStatus> := {Processed, Uploading, FailedRetryable, Uploaded, DeadLettered}

  /** Digests that may be stored for an event: both consents granted, and a usable match key. */
  predicate Justified(facts: Facts, digests: HashedIdentifiers) {
    facts.consent.BothGranted() && digests.PlainFieldsVisible() && (digests.HasMatchKey() || facts.HasClickId())
  }

  /** The columns that a validated lead fills are filled, and the match key type tells the click id. */
  predicate IsComplete(facts: Facts) {
    facts.conversion.Some?
    && facts.matchKeyType == Some(if facts.HasClickId() then ClickId else UserIdentifiers)
  }

  /** The log explains the row: a trail to the current status; both counters and the reason can be read off it. */
  predicate IsExplained(e: Event) {
    && IsAuditTrail(e.log) && e.log[|e.log| - 1].to == e.status
    && (forall i :: 1 <= i < |e.log| ==> e.log[i].from != Some(Suppressed))
    && e.attemptCount == AttemptsIn(e.log) && e.lastAttemptAt == LastAttemptIn(e.log)
    && e.statusReason == ReasonIn(e.log)
  }

  /** The row holds what its status promises. */
  predicate IsFilled(e: Event) {
    && e.status !in {Received, Validated}
    && (e.status != Rejected ==> IsComplete(e.facts))
    && (e.digests.Some? ==> Justified(e.facts, e.digests.value))
    && (e.status in HASHED_STATES ==> e.digests.Some?)
  }

  predicate IsSound(e: Event) {
    IsExplained(e) && IsFilled(e)
  }

  /** The same event later on: its first columns never change, its log only grows, digests are not lost. */
  predicate Continues(before: Event, after: Event) {
    after.facts == before.facts && before.log <= after.log && (before.digests.Some? ==> after.digests.Some?)
  }

  lemma AttemptsAppend(log: seq<LogEntry>, x: LogEntry)
    ensures AttemptsIn(log + [x])
            == if x.to == Queued then 0 else AttemptsIn(log) + if x.to == Uploading then 1 else 0
    ensures LastAttemptIn(log + [x])
            == if x.to == Queued then None else if x.to == Uploading then Some(x.at) else LastAttemptIn(log)
    ensures ReasonIn(log + [x]) == if x.from == Some(x.to) then ReasonIn(log) else x.reason
  {
    assert (log + [x])[..|log|] == log;
  }

  lemma LineExtendsTrail(log: seq<LogEntry>, x: LogEntry)
    requires IsAuditTrail(log) && x.from == Some(log[|log| - 1].to) && IsLegalEntry(x) && x.from != Some(Suppressed)
    requires forall i :: 1 <= i < |log| ==> log[i].from != Some(Suppressed)
    ensures IsAuditTrail(log + [x]) && forall i :: 1 <= i < |log + [x]| ==> (log + [x])[i].from != Some(Suppressed)
  {
  }

  /** Appending one legal line keeps the row explained, with the counters the line calls for. */
  lemma LineKeepsExplained(e: Event, x: LogEntry, after: Event)
    requires IsExplained(e) && e.status != Suppressed && x.from == Some(e.status) && IsLegalEntry(x)
    requires after.log == e.log + [x] && after.status == x.to
    requires if x.to == Uploading then after.attemptCount == e.attemptCount + 1 && after.lastAttemptAt == Some(x.at)
             else if x.to == Queued then after.attemptCount == 0 && after.lastAttemptAt == None
             else after.attemptCount == e.attemptCount && after.lastAttemptAt == e.lastAttemptAt
    requires after.statusReason == if x.from == Some(x.to) then e.statusReason else x.reason
    ensures IsExplained(after)
  {
    AttemptsAppend(e.log, x);
    LineExtendsTrail(e.log, x);
  }

  lemma RetryKeepsExplained(e: Event, cause: string, now: nat)
    requires IsExplained(e) && Changed(e, RecordRetry(cause), now).Some?
    ensures IsExplained(Changed(e, RecordRetry(cause), now).value)
    ensures e.log <= Changed(e, RecordRetry(cause), now).value.log
  {
    var after := Changed(e, RecordRetry(cause), now).value;
    var failed := Transition(e, FailedRetryable, Some(TransientRequest(cause)), now).value;
    LineKeepsExplained(e, failed.log[|e.log|], failed);
    LineKeepsExplained(failed, after.log[|failed.log|], after);
  }

  lemma ChangeKeepsExplained(e: Event, change: Change, now: nat)
    requires IsExplained(e) && Changed(e, change, now).Some?
    ensures IsExplained(Changed(e, change, now).value) && e.log <= Changed(e, change, now).value.log
  {
    if change.RecordRetry? {
      RetryKeepsExplained(e, change.cause, now);
    } else {
      var after := Changed(e, change, now).value;
      LineKeepsExplained(e, after.log[|e.log|], after);
    }
  }

  lemma ChangeKeepsFilled(e: Event, change: Change, now: nat)
    requires IsFilled(e) && Changed(e, change, now).Some?
    requires change.Process? ==> Justified(e.facts, change.digests)
    ensures IsFilled(Changed(e, change, now).value)
    ensures Changed(e, change, now).value.facts == e.facts
    ensures e.digests.Some? ==> Changed(e, change, now).value.digests.Some?
    ensures e.status != DeadLettered
    ensures Changed(e, change, now).value.status == DeadLettered <==> change.DeadLetterRow?
  {
  }

  lemma ChangeKeepsSound(e: Event, change: Change, now: nat)
    requires IsSound(e) && Changed(e, change, now).Some?
    requires change.Process? ==> Justified(e.facts, change.digests)
    ensures IsSound(Changed(e, change, now).value) && Continues(e, Changed(e, change, now).value)
    ensures e.status != DeadLettered
    ensures Changed(e, change, now).value.status == DeadLettered <==> change.DeadLetterRow?
    ensures |e.log| < |Changed(e, change, now).value.log|
  {
    ChangeKeepsExplained(e, change, now);
    ChangeKeepsFilled(e, change, now);
  }

  lemma RequeueKeepsSound(e: Event, record: nat, now: nat)
    requires IsSound(e) && e.status == DeadLettered
    ensures Requeued(e, record, now).Some?
    ensures IsSound(Requeued(e, record, now).value) && Continues(e, Requeued(e, record, now).value)
    ensures Requeued(e, record, now).value.status == Queued
  {
    var after := Requeued(e, record, now).value;
    LineKeepsExplained(e, after.log[|e.log|], after);
  }

  lemma QueuedIsSound(lead: LeadEvent, now: nat)
    ensures IsSound(QueuedEvent(lead.FactsAt(now), now)) && QueuedEvent(lead.FactsAt(now), now).status == Queued
  {
    var q := QueuedEvent(lead.FactsAt(now), now);
    assert q.log == [q.log[0]] + [q.log[1]] + [q.log[2]];
    AttemptsAppend([], q.log[0]);
    AttemptsAppend([q.log[0]], q.log[1]);
    AttemptsAppend([q.log[0]] + [q.log[1]], q.log[2]);
  }

  lemma RejectedIsSound(source: Source, sourceEventId: string, errors: string, now: nat)
    ensures IsSound(RejectedEvent(source, sourceEventId, errors, now))
    ensures RejectedEvent(source, sourceEventId, errors, now).status == Rejected
  {
    var r := RejectedEvent(source, sourceEventId, errors, now);
    assert r.log == [r.log[0]] + [r.log[1]];
    AttemptsAppend([], r.log[0]);
    AttemptsAppend([r.log[0]], r.log[1]);
  }

  // --- The dead-letter table against the ledger ---

  predicate IsOpenFor(db: Db, i: nat, id: EventId) {
    i < |db.dead| && db.dead[i].eventId == id && db.dead[i].Open()
  }

  /** Each record belongs to an event and holds a prefix of its log that ends with the dead-lettering it records. */
  predicate RecordsMatchLogs(db: Db) {
    forall i :: 0 <= i < |db.dead| ==>
      var row := db.dead[i];
      && row.eventId in db.events && row.source == db.events[row.eventId].facts.source
      && row.history != []
      && row.history[|row.history| - 1] == HistoryEntry(row.deadLetteredAt, DeadLettered, Some(row.reason))
      && row.history <= History(db.events[row.eventId].log)
  }

  /** A later record of the same event holds a strictly longer history. */
  predicate HistoriesGrow(db: Db) {
    forall i, j :: 0 <= i < j < |db.dead| && db.dead[i].eventId == db.dead[j].eventId ==>
      |db.dead[i].history| < |db.dead[j].history|
  }

  /** An event has exactly one open record when it is DEAD_LETTERED, and none otherwise. */
  ghost predicate OpenIffDeadLettered(db: Db) {
    && (forall i, j :: 0 <= i < j < |db.dead| && db.dead[i].Open() && db.dead[j].Open() ==>
          db.dead[i].eventId != db.dead[j].eventId)
    && (forall i :: 0 <= i < |db.dead| && db.dead[i].Open() ==> db.Has(db.dead[i].eventId, DeadLettered))
    && (forall id :: db.Has(id, DeadLettered) ==> exists i :: IsOpenFor(db, i, id))
  }

  predicate AllSound(events: map<EventId, Event>) {
    forall id :: id in events ==> IsSound(events[id])
  }

  ghost predicate IsSoundDb(db: Db) {
    AllSound(db.events) && RecordsMatchLogs(db) && HistoriesGrow(db) && OpenIffDeadLettered(db)
  }

  /** The same record later on: only the replay marks can have changed, and a replay is never undone. */
  predicate RecordContinues(before: DeadLetter, after: DeadLetter) {
    after == before.(replayedAt := after.replayedAt, replayCount := after.replayCount)
    && (!before.Open() ==> after == before)
  }

  predicate EventsContinue(before: map<EventId, Event>, after: map<EventId, Event>) {
    forall id :: id in before ==> id in after && Continues(before[id], after[id])
  }

  predicate DeadContinue(before: seq<DeadLetter>, after: seq<DeadLetter>) {
    |before| <= |after| && forall i :: 0 <= i < |before| ==> RecordContinues(before[i], after[i])
  }

  /** The same tables later on. */
  predicate DbContinues(before: Db, after: Db) {
    EventsContinue(before.events, after.events) && DeadContinue(before.dead, after.dead)
  }

  /** Digests are only written where consent and match key allow it. */
  predicate Licensed(db: Db, op: Op) {
    op.Update? && op.change.Process? ==>
      op.id in db.events && Justified(db.events[op.id].facts, op.change.digests)
  }

  lemma HistoryOfLonger(a: seq<LogEntry>, b: seq<LogEntry>)
    requires a <= b
    ensures History(a) <= History(b)
  {
  }

  /** The tables with one event row replaced or added. */
  function WithEvent(db: Db, id: EventId, e: Event): Db {
    db.(events := db.events[id := e])
  }

  /** Replacing one event by its continuation keeps the records matching. */
  lemma RecordsFollow(db: Db, id: EventId, e: Event)
    requires RecordsMatchLogs(db) && (id in db.events ==> Continues(db.events[id], e))
    ensures RecordsMatchLogs(WithEvent(db, id, e))
  {
    if id in db.events {
      HistoryOfLonger(db.events[id].log, e.log);
    }
  }

  lemma SoundFollows(db: Db, id: EventId, e: Event)
    requires AllSound(db.events) && IsSound(e)
    ensures AllSound(db.events[id := e])
  {
  }

  lemma EventsFollow(db: Db, id: EventId, e: Event)
    requires id in db.events ==> Continues(db.events[id], e)
    ensures EventsContinue(db.events, db.events[id := e])
  {
  }

  /** An event without an open record, before and after. */
  lemma OpenFollows(db: Db, id: EventId, e: Event)
    requires OpenIffDeadLettered(db) && !db.Has(id, DeadLettered) && e.status != DeadLettered
    ensures OpenIffDeadLettered(WithEvent(db, id, e))
  {
    var after := WithEvent(db, id, e);
    forall other | after.Has(other, DeadLettered) ensures exists i :: IsOpenFor(after, i, other) {
      assert db.Has(other, DeadLettered);
      var i :| IsOpenFor(db, i, other);
      assert IsOpenFor(after, i, other);
    }
  }

  /** Adding or replacing a row that is not dead-lettered and continues what was there. */
  lemma PlainUpdateKeepsSound(db: Db, id: EventId, e: Event)
    requires IsSoundDb(db) && IsSound(e) && e.status != DeadLettered
    requires id in db.events ==> Continues(db.events[id], e) && db.events[id].status != DeadLettered
    ensures IsSoundDb(WithEvent(db, id, e)) && DbContinues(db, WithEvent(db, id, e))
  {
    SoundFollows(db, id, e);
    RecordsFollow(db, id, e);
    OpenFollows(db, id, e);
    EventsFollow(db, id, e);
  }

  /** The tables after one event is dead-lettered. */
  function WithRecord(db: Db, id: EventId, e: Event, row: DeadLetter): Db {
    Db(db.events[id := e], db.dead + [row])
  }

  lemma RecordAddedOpens(db: Db, id: EventId, e: Event, row: DeadLetter)
    requires OpenIffDeadLettered(db) && !db.Has(id, DeadLettered) && e.status == DeadLettered
    requires row.eventId == id && row.Open()
    ensures OpenIffDeadLettered(WithRecord(db, id, e, row))
  {
    var after := WithRecord(db, id, e, row);
    assert IsOpenFor(after, |db.dead|, id);
    forall other | after.Has(other, DeadLettered) && other != id ensures exists i :: IsOpenFor(after, i, other) {
      assert db.Has(other, DeadLettered);
      var i :| IsOpenFor(db, i, other);
      assert IsOpenFor(after, i, other);
    }
  }

  lemma RecordAddedMatches(db: Db, id: EventId, e: Event, row: DeadLetter)
    requires RecordsMatchLogs(db) && id in db.events && Continues(db.events[id], e)
    requires e.log != [] && e.log[|e.log| - 1].to == DeadLettered
    requires e.log[|e.log| - 1].reason == Some(row.reason) && e.log[|e.log| - 1].at == row.deadLetteredAt
    requires row.eventId == id && row.history == History(e.log) && row.source == e.facts.source
    ensures RecordsMatchLogs(WithRecord(db, id, e, row))
  {
    RecordsFollow(db, id, e);
  }

  lemma RecordAddedGrows(db: Db, id: EventId, e: Event, row: DeadLetter)
    requires RecordsMatchLogs(db) && HistoriesGrow(db) && id in db.events
    requires |db.events[id].log| < |e.log| && row.eventId == id && row.history == History(e.log)
    ensures HistoriesGrow(WithRecord(db, id, e, row))
  {
    OldRecordsShorter(db, id);
  }

  lemma OldRecordsShorter(db: Db, id: EventId)
    requires RecordsMatchLogs(db) && id in db.events
    ensures forall i :: 0 <= i < |db.dead| && db.dead[i].eventId == id ==>
              |db.dead[i].history| <= |db.events[id].log|
  {
    assert forall i :: 0 <= i < |db.dead| && db.dead[i].eventId == id ==>
      |db.dead[i].history| <= |History(db.events[id].log)|;
  }

  /** The line and the record that a dead-lettering writes. */
  lemma DeadLetteringWrites(e: Event, id: EventId, change: Change, now: nat)
    requires change.DeadLetterRow? && Changed(e, change, now).Some?
    ensures var after := Changed(e, change, now).value;
            var row := RecordOf(id, after, change, now);
            && after.status == DeadLettered && |after.log| == |e.log| + 1
            && after.log[|e.log|] == LogEntry(Some(e.status), DeadLettered, Some(row.reason), row.deadLetteredAt)
            && row.eventId == id && row.Open() && row.history == History(after.log) && row.source == after.facts.source
  {
  }

  lemma DeadLetterKeepsSound(db: Db, id: EventId, change: Change, now: nat)
    requires IsSoundDb(db) && id in db.events && change.DeadLetterRow?
    requires Changed(db.events[id], change, now).Some?
    ensures var e := Changed(db.events[id], change, now).value;
            var after := WithRecord(db, id, e, RecordOf(id, e, change, now));
            IsSoundDb(after) && DbContinues(db, after)
  {
    hide IsSound, RecordsMatchLogs, HistoriesGrow, OpenIffDeadLettered, EventsContinue, Changed, RecordOf, History;
    assert IsSound(db.events[id]);
    var e := Changed(db.events[id], change, now).value;
    var row := RecordOf(id, e, change, now);
    ChangeKeepsSound(db.events[id], change, now);
    DeadLetteringWrites(db.events[id], id, change, now);
    SoundFollows(db, id, e);
    RecordAddedOpens(db, id, e, row);
    RecordAddedMatches(db, id, e, row);
    RecordAddedGrows(db, id, e, row);
    EventsFollow(db, id, e);
  }

  /** The tables after one record is replayed. */
  function WithReplay(db: Db, record: nat, e: Event, now: nat): Db
    requires record < |db.dead|
  {
    var row := db.dead[record];
    Db(db.events[row.eventId := e],
       db.dead[record := row.(replayedAt := Some(now), replayCount := row.replayCount + 1)])
  }

  lemma ReplayCloses(db: Db, record: nat, e: Event, now: nat)
    requires OpenIffDeadLettered(db) && record < |db.dead| && db.dead[record].Open() && e.status != DeadLettered
    ensures OpenIffDeadLettered(WithReplay(db, record, e, now))
  {
    var after := WithReplay(db, record, e, now);
    forall other | after.Has(other, DeadLettered) ensures exists i :: IsOpenFor(after, i, other) {
      assert db.Has(other, DeadLettered);
      var i :| IsOpenFor(db, i, other);
      assert IsOpenFor(after, i, other);
    }
  }

  lemma ReplayKeepsMatching(db: Db, record: nat, e: Event, now: nat)
    requires RecordsMatchLogs(db) && record < |db.dead| && Continues(db.events[db.dead[record].eventId], e)
    ensures RecordsMatchLogs(WithReplay(db, record, e, now))
  {
    RecordsFollow(db, db.dead[record].eventId, e);
  }

  lemma ReplayKeepsGrowing(db: Db, record: nat, e: Event, now: nat)
    requires HistoriesGrow(db) && record < |db.dead|
    ensures HistoriesGrow(WithReplay(db, record, e, now))
  {
  }

  lemma ReplayKeepsSound(db: Db, record: nat, now: nat)
    requires IsSoundDb(db) && CanReplay(db, record)
    ensures Requeued(db.events[db.dead[record].eventId], record, now).Some?
    ensures var e := Requeued(db.events[db.dead[record].eventId], record, now).value;
            IsSoundDb(WithReplay(db, record, e, now)) && DbContinues(db, WithReplay(db, record, e, now))
  {
    hide RecordsMatchLogs, HistoriesGrow, OpenIffDeadLettered, EventsContinue, Requeued;
    var id := db.dead[record].eventId;
    RequeueKeepsSound(db.events[id], record, now);
    var e := Requeued(db.events[id], record, now).value;
    SoundFollows(db, id, e);
    ReplayCloses(db, record, e, now);
    ReplayKeepsMatching(db, record, e, now);
    ReplayKeepsGrowing(db, record, e, now);
    EventsFollow(db, id, e);
  }

  /** The tables after an insert that found no row of that id, or the same tables. */
  lemma InsertKeepsSound(db: Db, op: Op)
    requires IsSoundDb(db) && (op.InsertValidated? || op.InsertRejected?)
    ensures Step(db, op).Some? && IsSoundDb(Step(db, op).value) && DbContinues(db, Step(db, op).value)
  {
    match op {
      case InsertValidated(lead, at) =>
        QueuedIsSound(lead, at);
        if lead.eventId !in db.events {
          PlainUpdateKeepsSound(db, lead.eventId, QueuedEvent(lead.FactsAt(at), at));
        }
      case InsertRejected(id, source, sourceEventId, errors, at) =>
        RejectedIsSound(source, sourceEventId, errors, at);
        if id !in db.events {
          PlainUpdateKeepsSound(db, id, RejectedEvent(source, sourceEventId, errors, at));
        }
    }
  }

  lemma PlainChangeKeepsSound(db: Db, id: EventId, change: Change, now: nat)
    requires IsSoundDb(db) && id in db.events && !change.DeadLetterRow?
    requires Changed(db.events[id], change, now).Some?
    requires change.Process? ==> Justified(db.events[id].facts, change.digests)
    ensures var after := WithEvent(db, id, Changed(db.events[id], change, now).value);
            IsSoundDb(after) && DbContinues(db, after)
  {
    ChangeKeepsSound(db.events[id], change, now);
    PlainUpdateKeepsSound(db, id, Changed(db.events[id], change, now).value);
  }

  lemma Unchanged(db: Db)
    ensures DbContinues(db, db)
  {
  }

  /** Every ledger call keeps the tables sound and only ever continues what was there. */
  lemma StepKeepsSound(db: Db, op: Op)
    requires IsSoundDb(db) && Step(db, op).Some? && Licensed(db, op)
    ensures IsSoundDb(Step(db, op).value) && DbContinues(db, Step(db, op).value)
  {
    hide IsSoundDb, DbContinues, Changed, Requeued, CanReplay;
    Unchanged(db);
    if op.Update? {
      if op.change.DeadLetterRow? {
        DeadLetterKeepsSound(db, op.id, op.change, op.at);
      } else {
        PlainChangeKeepsSound(db, op.id, op.change, op.at);
      }
    } else if op.Replay? {
      if CanReplay(db, op.record) {
        ReplayKeepsSound(db, op.record, op.at);
      }
    } else {
      InsertKeepsSound(db, op);
    }
  }

  lemma ContinuesTransitively(a: Db, b: Db, c: Db)
    requires DbContinues(a, b) && DbContinues(b, c)
    ensures DbContinues(a, c)
  {
    forall id | id in a.events ensures id in c.events && Continues(a.events[id], c.events[id]) {
      assert id in b.events && Continues(a.events[id], b.events[id]) && Continues(b.events[id], c.events[id]);
    }
    forall i | 0 <= i < |a.dead| ensures RecordContinues(a.dead[i], c.dead[i]) {
      assert RecordContinues(a.dead[i], b.dead[i]) && RecordContinues(b.dead[i], c.dead[i]);
    }
  }

  /** Every transaction keeps the tables sound. */
  lemma {:induction false} RunKeepsSound(db: Db, ops: seq<Op>)
    requires IsSoundDb(db) && Run(db, ops).Some? && forall op :: op in ops ==> Licensed(db, op)
    ensures IsSoundDb(Run(db, ops).value) && DbContinues(db, Run(db, ops).value)
    decreases |ops|
  {
    if ops != [] {
      var next := Step(db, ops[0]).value;
      StepKeepsSound(db, ops[0]);
      forall op | op in ops[1..] ensures Licensed(next, op) {
        assert op in ops && Licensed(db, op);
      }
      RunKeepsSound(next, ops[1..]);
      ContinuesTransitively(db, next, Run(db, ops).value);
    }
  }
}

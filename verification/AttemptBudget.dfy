/** How often a row can be attempted and carried by a request, and why sending therefore comes to an end. */
module AttemptBudget {
  import opened Wrappers
  import opened Status
  import opened Model
  import opened Ledger
  import opened Transactions
  import opened Delivery
  import opened Processor
  import opened Pipeline
  import opened Provenance
  import opened LedgerInvariants
  import opened AuditTrail
  import opened LeaseExclusivity

  // --- The budget ---

  /** How many requests one batch may take: the first is always made. */
  function Requests(cfg: Config): nat {
    if cfg.uploader.maxAttempts == 0 then 1 else cfg.uploader.maxAttempts
  }

  /** The most attempts any row can show. */
  function Limit(cfg: Config): nat {
    cfg.uploader.maxRowAttempts + Requests(cfg)
  }

  /** Only a row that is dead-lettered may have used up its budget, and not every attempt was a request. */
  predicate RowFits(limit: nat, e: Event, carried: nat) {
    carried <= e.attemptCount <= limit && carried < limit && (e.status != DeadLettered ==> e.attemptCount < limit)
  }

  ghost predicate RowsFit(limit: nat, db: Db, carried: multiset<EventId>) {
    && (forall id :: id in db.events ==> RowFits(limit, db.events[id], carried[id]))
    && (forall id :: id in carried ==> id in db.events)
  }

  /** A held row within its ceiling; an unsent one has made fewer requests than attempts. */
  predicate EntryFits(db: Db, carried: multiset<EventId>, id: EventId, ceiling: int, unsent: bool) {
    && id in db.events && db.events[id].attemptCount <= ceiling
    && (unsent ==> carried[id] < db.events[id].attemptCount)
  }

  predicate EntriesFit(db: Db, carried: multiset<EventId>, batch: seq<Claimed>, ceiling: int, unsent: bool) {
    forall i :: 0 <= i < |batch| ==> EntryFits(db, carried, batch[i].eventId, ceiling, unsent)
  }

  /** The batch in hand after `attempt` attempts. */
  predicate FlightFits(cfg: Config, db: Db, carried: multiset<EventId>, flight: Flight) {
    flight.Idle?
    || (&& 1 <= flight.attempt <= Requests(cfg)
        && EntriesFit(db, carried, flight.batch, cfg.uploader.maxRowAttempts + flight.attempt - 1, flight.Ready?))
  }

  predicate UploaderFits(cfg: Config, db: Db, carried: multiset<EventId>, up: UploaderState) {
    EntriesFit(db, carried, up.waiting, cfg.uploader.maxRowAttempts, true) && FlightFits(cfg, db, carried, up.flight)
  }

  predicate UploadersFit(cfg: Config, db: Db, carried: multiset<EventId>, uploaders: seq<UploaderState>) {
    forall u :: 0 <= u < |uploaders| ==> UploaderFits(cfg, db, carried, uploaders[u])
  }

  ghost predicate IsWithinBudget(cfg: Config, s: System) {
    RowsFit(Limit(cfg), s.db, s.carried) && UploadersFit(cfg, s.db, s.carried, s.uploaders)
  }

  // --- Frames ---

  /** What is held fits as long as nothing about the held rows changes. */
  lemma UploaderStillFits(cfg: Config, db: Db, carried: multiset<EventId>, up: UploaderState, after: Db,
                          carriedAfter: multiset<EventId>)
    requires UploaderFits(cfg, db, carried, up)
    requires forall id :: Holds(up, id) && id in db.events ==>
               id in after.events && after.events[id] == db.events[id] && carriedAfter[id] == carried[id]
    ensures UploaderFits(cfg, after, carriedAfter, up)
  {
    forall i | 0 <= i < |up.waiting| ensures Holds(up, up.waiting[i].eventId) {
      assert up.Holding()[i] == up.waiting[i];
    }
    forall i | 0 <= i < |up.Batch()| ensures Holds(up, up.Batch()[i].eventId) {
      assert up.Holding()[|up.waiting| + i] == up.Batch()[i];
    }
  }

  /** The uploaders other than the one that acts. */
  lemma OthersStillFit(cfg: Config, s: System, u: nat, next: UploaderState, after: Db, carriedAfter: multiset<EventId>)
    requires UploadersFit(cfg, s.db, s.carried, s.uploaders) && u < |s.uploaders|
    requires UploaderFits(cfg, after, carriedAfter, next)
    requires forall v, id :: 0 <= v < |s.uploaders| && v != u && Holds(s.uploaders[v], id) && id in s.db.events ==>
               id in after.events && after.events[id] == s.db.events[id] && carriedAfter[id] == s.carried[id]
    ensures UploadersFit(cfg, after, carriedAfter, s.uploaders[u := next])
  {
    forall v | 0 <= v < |s.uploaders| && v != u ensures UploaderFits(cfg, after, carriedAfter, s.uploaders[v]) {
      UploaderStillFits(cfg, s.db, s.carried, s.uploaders[v], after, carriedAfter);
    }
  }

  // --- Ingest, workers, operators ---

  lemma RowReplacedFits(limit: nat, events: map<EventId, Event>, dead: seq<DeadLetter>, deadAfter: seq<DeadLetter>,
                        carried: multiset<EventId>, id: EventId, e: Event)
    requires RowsFit(limit, Db(events, dead), carried) && RowFits(limit, e, carried[id])
    ensures RowsFit(limit, Db(events[id := e], deadAfter), carried)
  {
    assert forall other :: other in carried ==> other in Db(events, dead).events;
  }

  lemma InsertFits(limit: nat, db: Db, carried: multiset<EventId>, op: Op)
    requires RowsFit(limit, db, carried) && limit >= 1 && (op.InsertValidated? || op.InsertRejected?)
    ensures Step(db, op).Some? && RowsFit(limit, Step(db, op).value, carried)
  {
    match op {
      case InsertValidated(lead, at) =>
        if lead.eventId !in db.events {
          RowReplacedFits(limit, db.events, db.dead, db.dead, carried, lead.eventId, QueuedEvent(lead.FactsAt(at), at));
        }
      case InsertRejected(id, source, sourceEventId, errors, at) =>
        if id !in db.events {
          RowReplacedFits(limit, db.events, db.dead, db.dead, carried, id,
                          RejectedEvent(source, sourceEventId, errors, at));
        }
    }
  }

  lemma ProcessingFits(lib: Identifiers.Libraries, limit: nat, db: Db, carried: multiset<EventId>, m: Message, now: nat)
    requires RowsFit(limit, db, carried)
    ensures Run(db, ProcessOps(lib, db, m, now)).Some?
    ensures RowsFit(limit, Run(db, ProcessOps(lib, db, m, now)).value, carried)
  {
    ProcessingMoves(lib, db, m, now);
    if db.Has(m.eventId, Queued) {
      ProcessedRow(lib, db, m, now);
      var e := Changed(db.events[m.eventId], Decide(lib, db.events[m.eventId], m.identifiers), now).value;
      assert RowFits(limit, db.events[m.eventId], carried[m.eventId]);
      RowReplacedFits(limit, db.events, db.dead, db.dead, carried, m.eventId, e);
    }
  }

  /** A replay starts the event's budget afresh. */
  lemma ReplayFits(limit: nat, db: Db, carried: multiset<EventId>, record: nat, now: nat)
    requires RowsFit(limit, db, carried) && limit >= 1 && CanReplay(db, record)
    ensures Step(db, Replay(record, now)).Some?
    ensures RowsFit(limit, Step(db, Replay(record, now)).value, carried[db.dead[record].eventId := 0])
  {
    var id := db.dead[record].eventId;
    var after := Step(db, Replay(record, now)).value;
    var reset := carried[id := 0];
    assert RowsFit(limit, db, reset);
    RowReplacedFits(limit, db.events, db.dead, after.dead, reset, id, after.events[id]);
  }

  lemma OtherRowsFit(cfg: Config, s: System, a: Action)
    requires !a.Upload? && IsEnabled(cfg, s, a) && RowsFit(Limit(cfg), s.db, s.carried)
    ensures Run(s.db, LedgerOps(cfg, s, a)).Some?
    ensures var next := AfterAction(cfg, s, a, Run(s.db, LedgerOps(cfg, s, a)).value);
            RowsFit(Limit(cfg), next.db, next.carried)
  {
    match a {
      case IngestLead(lead) =>
        SingleOp(s.db, InsertValidated(lead, s.clock));
        InsertFits(Limit(cfg), s.db, s.carried, InsertValidated(lead, s.clock));
      case IngestInvalid(id, source, sourceEventId, errors) =>
        SingleOp(s.db, InsertRejected(id, source, sourceEventId, errors, s.clock));
        InsertFits(Limit(cfg), s.db, s.carried, InsertRejected(id, source, sourceEventId, errors, s.clock));
      case ProcessDelivery(ack) =>
        ProcessingFits(cfg.lib, Limit(cfg), s.db, s.carried, s.queue.inflight[ack].message, s.clock);
      case ReplayCommit(record) =>
        SingleOp(s.db, Replay(record, s.clock));
        ReplayFits(Limit(cfg), s.db, s.carried, record, s.clock);
      case _ =>
    }
  }

  /** Only the event of a committed replay forgets its requests, and it is dead-lettered, so nobody holds it. */
  lemma OtherCounts(cfg: Config, s: System, a: Action, db: Db, id: EventId)
    requires !a.Upload? && IsEnabled(cfg, s, a) && s.db.Has(id, Uploading)
    ensures AfterAction(cfg, s, a, db).carried[id] == s.carried[id]
    ensures AfterAction(cfg, s, a, db).uploaders == s.uploaders
  {
  }

  lemma OthersKeepBudget(cfg: Config, s: System, a: Action)
    requires !a.Upload? && IsEnabled(cfg, s, a) && IsExclusive(s.db, s.uploaders) && IsWithinBudget(cfg, s)
    ensures Run(s.db, LedgerOps(cfg, s, a)).Some?
    ensures IsWithinBudget(cfg, AfterAction(cfg, s, a, Run(s.db, LedgerOps(cfg, s, a)).value))
  {
    OtherRowsFit(cfg, s, a);
    OthersLeaveUploading(cfg, s, a);
    var db := Run(s.db, LedgerOps(cfg, s, a)).value;
    var next := AfterAction(cfg, s, a, db);
    OnlyDbMatters(cfg, s, a, db);
    forall u | 0 <= u < |s.uploaders| ensures UploaderFits(cfg, next.db, next.carried, s.uploaders[u]) {
      forall id | Holds(s.uploaders[u], id) && id in s.db.events
        ensures id in next.db.events && next.db.events[id] == s.db.events[id] && next.carried[id] == s.carried[id]
      {
        assert s.db.Has(id, Uploading);
        OtherCounts(cfg, s, a, db, id);
      }
      UploaderStillFits(cfg, s.db, s.carried, s.uploaders[u], next.db, next.carried);
    }
    assert next.uploaders == s.uploaders;
  }

  // --- Sending ---

  lemma {:induction false} CarriedOnce(batch: seq<Claimed>, id: EventId)
    requires forall i, j :: 0 <= i < j < |batch| ==> batch[i].eventId != batch[j].eventId
    ensures multiset(Ids(batch))[id] == if InBatch(batch, id) then 1 else 0
    decreases |batch|
  {
    if batch == [] {
      assert Ids(batch) == [];
    } else {
      var last := |batch| - 1;
      assert Ids(batch) == Ids(batch[..last]) + [batch[last].eventId];
      CarriedOnce(batch[..last], id);
      assert batch == batch[..last] + [batch[last]];
      InBatchConcat(batch[..last], [batch[last]], id);
      assert InBatch([batch[last]], id) <==> [batch[last]][0].eventId == id;
    }
  }

  /** The step makes a request. */
  predicate IsRequest(step: UploadStep) {
    step.Deliver? || step.LoseResponse? || step.FailRequest? || step.RefuseRequest?
  }

  lemma CarriedBySending(up: UploaderState, step: UploadStep, id: EventId)
    requires up.flight.Ready? && IsRequest(step)
    requires forall i, j :: 0 <= i < j < |up.Batch()| ==> up.Batch()[i].eventId != up.Batch()[j].eventId
    ensures NewlyCarried(up, step)[id] == if InBatch(up.Batch(), id) then 1 else 0
  {
    CarriedOnce(up.Batch(), id);
  }

  /** A request uses up one of the attempts that were claimed for it. */
  lemma SendingFits(cfg: Config, db: Db, carried: multiset<EventId>, up: UploaderState, carriedAfter: multiset<EventId>)
    requires UploaderFits(cfg, db, carried, up) && up.flight.Ready? && IsOwned(db, up.Holding())
    requires RowsFit(Limit(cfg), db, carried)
    requires forall id :: carriedAfter[id] == carried[id] + if InBatch(up.Batch(), id) then 1 else 0
    ensures RowsFit(Limit(cfg), db, carriedAfter)
    ensures EntriesFit(db, carriedAfter, up.waiting, cfg.uploader.maxRowAttempts, true)
    ensures EntriesFit(db, carriedAfter, up.Batch(), cfg.uploader.maxRowAttempts + up.flight.attempt - 1, false)
  {
    OwnedParts(db, up.waiting, up.Batch());
    forall id | id in db.events ensures RowFits(Limit(cfg), db.events[id], carriedAfter[id]) {
      if InBatch(up.Batch(), id) {
        var i :| 0 <= i < |up.Batch()| && up.Batch()[i].eventId == id;
        assert EntryFits(db, carried, up.Batch()[i].eventId, cfg.uploader.maxRowAttempts + up.flight.attempt - 1, true);
      }
    }
    forall id | id in carriedAfter ensures id in db.events {
      assert carriedAfter[id] > 0;
      assert id in carried || InBatch(up.Batch(), id);
    }
    forall i | 0 <= i < |up.waiting|
      ensures EntryFits(db, carriedAfter, up.waiting[i].eventId, cfg.uploader.maxRowAttempts, true)
    {
      assert InBatch(up.waiting, up.waiting[i].eventId);
    }
  }

  /** The uploader after its request: the same rows, the same attempt, and the batch not to be sent again as it is. */
  lemma AfterSending(cfg: Config, s: System, up: UploaderState, step: UploadStep)
    requires CanUpload(cfg, s, up, step) && IsRequest(step)
    ensures var next := NextUploader(cfg, s, up, step);
            && next.waiting == up.waiting && next.Batch() == up.Batch()
            && !next.flight.Ready? && !next.flight.Idle? && next.flight.attempt == up.flight.attempt
  {
  }

  lemma SentFits(cfg: Config, s: System, up: UploaderState, step: UploadStep, carriedAfter: multiset<EventId>)
    requires UploaderFits(cfg, s.db, s.carried, up) && IsOwned(s.db, up.Holding())
             && RowsFit(Limit(cfg), s.db, s.carried)
    requires CanUpload(cfg, s, up, step) && IsRequest(step)
    requires forall id :: carriedAfter[id] == s.carried[id] + if InBatch(up.Batch(), id) then 1 else 0
    ensures RowsFit(Limit(cfg), s.db, carriedAfter)
    ensures UploaderFits(cfg, s.db, carriedAfter, NextUploader(cfg, s, up, step))
  {
    SendingFits(cfg, s.db, s.carried, up, carriedAfter);
    AfterSending(cfg, s, up, step);
  }

  lemma SendKeepsBudget(cfg: Config, s: System, u: nat, step: UploadStep)
    requires IsExclusive(s.db, s.uploaders) && IsWithinBudget(cfg, s) && u < |s.uploaders|
    requires CanUpload(cfg, s, s.uploaders[u], step) && IsRequest(step)
    ensures IsWithinBudget(cfg, AfterUpload(cfg, s, u, step, s.db))
  {
    var up := s.uploaders[u];
    var carriedAfter := s.carried + NewlyCarried(up, step);
    OwnedParts(s.db, up.waiting, up.Batch());
    forall id
      ensures carriedAfter[id] == s.carried[id] + if InBatch(up.Batch(), id) then 1 else 0
    {
      CarriedBySending(up, step, id);
    }
    SentFits(cfg, s, up, step, carriedAfter);
    forall v, id | 0 <= v < |s.uploaders| && v != u && Holds(s.uploaders[v], id) && id in s.db.events
      ensures carriedAfter[id] == s.carried[id]
    {
      assert !Holds(up, id);
      InBatchConcat(up.waiting, up.Batch(), id);
    }
    OthersStillFit(cfg, s, u, NextUploader(cfg, s, up, step), s.db, carriedAfter);
  }

  // --- Retrying and settling ---

  /** Between two requests the rows of the batch gain at most one attempt, which the ceiling has room for. */
  lemma BatchRowsFit(limit: nat, db: Db, carried: multiset<EventId>, batch: seq<Claimed>, ops: seq<Op>, now: nat,
                     after: Db, ceiling: int, retry: bool)
    requires RowsFit(limit, db, carried) && IsOwned(db, batch) && AreBatchOps(ops, batch, now)
    requires IsBatchResult(db, batch, ops, after)
    requires forall i :: 0 <= i < |ops| ==> (ops[i].change.RecordRetry? <==> retry)
    requires EntriesFit(db, carried, batch, ceiling, false) && (retry ==> ceiling + 1 < limit)
    ensures RowsFit(limit, after, carried)
    ensures retry ==> EntriesFit(after, carried, batch, ceiling + 1, true)
  {
    forall i | 0 <= i < |batch|
      ensures batch[i].eventId in after.events
      ensures RowFits(limit, after.events[batch[i].eventId], carried[batch[i].eventId])
      ensures retry ==> EntryFits(after, carried, batch[i].eventId, ceiling + 1, true)
    {
      BatchRowFits(limit, db, carried, batch[i].eventId, ops[i].change, now, after, ceiling);
    }
    forall id | id in after.events ensures RowFits(limit, after.events[id], carried[id]) {
      if InBatch(batch, id) {
        var i :| 0 <= i < |batch| && batch[i].eventId == id;
      }
    }
  }

  lemma BatchRowFits(limit: nat, db: Db, carried: multiset<EventId>, id: EventId, change: Change, now: nat, after: Db,
                     ceiling: int)
    requires RowsFit(limit, db, carried) && db.Has(id, Uploading) && IsUploadChange(change) && id in after.events
    requires Changed(db.events[id], change, now) == Some(after.events[id])
    requires EntryFits(db, carried, id, ceiling, false) && (change.RecordRetry? ==> ceiling + 1 < limit)
    ensures RowFits(limit, after.events[id], carried[id])
    ensures change.RecordRetry? ==> EntryFits(after, carried, id, ceiling + 1, true)
  {
    assert RowFits(limit, db.events[id], carried[id]);
    assert after.events[id].attemptCount == db.events[id].attemptCount + if change.RecordRetry? then 1 else 0;
  }

  lemma SettleKeepsBudget(cfg: Config, s: System, u: nat, step: UploadStep, db: Db)
    requires IsExclusive(s.db, s.uploaders) && IsWithinBudget(cfg, s) && u < |s.uploaders|
    requires CanUpload(cfg, s, s.uploaders[u], step) && (step.Retry? || step.GiveUp? || step.Settle?)
    requires Run(s.db, UploadOps(cfg, s, s.uploaders[u], step)) == Some(db)
    ensures IsWithinBudget(cfg, AfterUpload(cfg, s, u, step, db))
  {
    var up := s.uploaders[u];
    var next := NextUploader(cfg, s, up, step);
    var ops := UploadOps(cfg, s, up, step);
    OwnedParts(s.db, up.waiting, up.Batch());
    var at := UploadOpsOfOwned(cfg, s, up, step);
    OwnedBatchRuns(s.db, up.Batch(), ops, at);
    BatchRowsFit(Limit(cfg), s.db, s.carried, up.Batch(), ops, at, db,
                 cfg.uploader.maxRowAttempts + up.flight.attempt - 1, step.Retry?);
    assert NewlyCarried(up, step) == multiset{};
    forall id | InBatch(up.waiting, id) && id in s.db.events ensures db.events[id] == s.db.events[id] {
    }
    WaitingStillFits(cfg, s.db, s.carried, up.waiting, db);
    forall v, id | 0 <= v < |s.uploaders| && v != u && Holds(s.uploaders[v], id) && id in s.db.events
      ensures id in db.events && db.events[id] == s.db.events[id]
    {
      assert !Holds(up, id);
      InBatchConcat(up.waiting, up.Batch(), id);
    }
    OthersStillFit(cfg, s, u, next, db, s.carried);
    assert AfterUpload(cfg, s, u, step, db).carried == s.carried;
  }

  lemma WaitingStillFits(cfg: Config, db: Db, carried: multiset<EventId>, waiting: seq<Claimed>, after: Db)
    requires EntriesFit(db, carried, waiting, cfg.uploader.maxRowAttempts, true)
    requires forall id ::
               InBatch(waiting, id) && id in db.events ==> id in after.events && after.events[id] == db.events[id]
    ensures EntriesFit(after, carried, waiting, cfg.uploader.maxRowAttempts, true)
  {
    forall i | 0 <= i < |waiting|
      ensures EntryFits(after, carried, waiting[i].eventId, cfg.uploader.maxRowAttempts, true)
    {
      assert InBatch(waiting, waiting[i].eventId);
      assert EntryFits(db, carried, waiting[i].eventId, cfg.uploader.maxRowAttempts, true);
    }
  }

  // --- Claiming ---

  lemma ClaimedRowsFit(cfg: Config, s: System, ids: seq<EventId>, claimed: seq<Claimed>, after: Db)
    requires RowsFit(Limit(cfg), s.db, s.carried)
    requires IsClaimResult(s.db, ids, s.clock, cfg.uploader.maxRowAttempts, cfg.uploader.customerId, claimed, after)
    ensures RowsFit(Limit(cfg), after, s.carried)
    ensures EntriesFit(after, s.carried, claimed, cfg.uploader.maxRowAttempts, true)
  {
    var k := cfg.uploader;
    forall i | 0 <= i < |claimed|
      ensures EntryFits(after, s.carried, claimed[i].eventId, k.maxRowAttempts, true)
      ensures RowFits(Limit(cfg), after.events[claimed[i].eventId], s.carried[claimed[i].eventId])
    {
      assert IsClaimedNow(s.db, ids, s.clock, k.maxRowAttempts, k.customerId, claimed[i], after);
      assert RowFits(Limit(cfg), s.db.events[claimed[i].eventId], s.carried[claimed[i].eventId]);
      ClaimCounts(s.db.events[claimed[i].eventId], s.clock);
    }
    forall id | id in after.events ensures RowFits(Limit(cfg), after.events[id], s.carried[id]) {
      assert RowFits(Limit(cfg), s.db.events[id], s.carried[id]);
      if id in ids {
        if InBatch(claimed, id) {
          var i :| 0 <= i < |claimed| && claimed[i].eventId == id;
        } else {
          assert IsBuriedNow(s.db, id, k.maxRowAttempts, after);
        }
      }
    }
  }

  lemma ClaimCounts(e: Event, now: nat)
    requires Changed(e, Claim, now).Some?
    ensures Changed(e, Claim, now).value.attemptCount == e.attemptCount + 1
    ensures Changed(e, Claim, now).value.status == Uploading
  {
  }

  lemma ClaimerFits(cfg: Config, s: System, up: UploaderState, claimed: seq<Claimed>, after: Db)
    requires EntriesFit(after, s.carried, up.waiting, cfg.uploader.maxRowAttempts, true) && up.flight.Idle?
    requires EntriesFit(after, s.carried, claimed, cfg.uploader.maxRowAttempts, true)
    ensures UploaderFits(cfg, after, s.carried, AfterClaiming(cfg, s.clock, up, claimed))
  {
    assert EntriesFit(after, s.carried, up.waiting + claimed, cfg.uploader.maxRowAttempts, true);
  }

  lemma ClaimedTablesFit(cfg: Config, s: System, u: nat, ids: seq<EventId>, claimed: seq<Claimed>, after: Db)
    requires IsWithinBudget(cfg, s) && u < |s.uploaders| && s.uploaders[u].flight.Idle?
    requires IsClaimResult(s.db, ids, s.clock, cfg.uploader.maxRowAttempts, cfg.uploader.customerId, claimed, after)
    requires forall id :: id in ids ==> !IsHeld(s.uploaders, id)
    ensures RowsFit(Limit(cfg), after, s.carried)
    ensures UploadersFit(cfg, after, s.carried, s.uploaders[u := AfterClaiming(cfg, s.clock, s.uploaders[u], claimed)])
  {
    var up := s.uploaders[u];
    ClaimedRowsFit(cfg, s, ids, claimed, after);
    forall v, id | 0 <= v < |s.uploaders| && Holds(s.uploaders[v], id) && id in s.db.events
      ensures id in after.events && after.events[id] == s.db.events[id]
    {
      assert IsHeld(s.uploaders, id);
    }
    assert up.Holding() == up.waiting;
    WaitingStillFits(cfg, s.db, s.carried, up.waiting, after);
    ClaimerFits(cfg, s, up, claimed, after);
    OthersStillFit(cfg, s, u, AfterClaiming(cfg, s.clock, up, claimed), after, s.carried);
  }

  lemma ClaimKeepsBudget(cfg: Config, s: System, u: nat, ids: seq<EventId>, locked: set<EventId>, db: Db)
    requires AllSound(s.db.events) && IsWithinBudget(cfg, s) && u < |s.uploaders|
    requires CanUpload(cfg, s, s.uploaders[u], Cycle(ids, locked))
    requires Run(s.db, UploadOps(cfg, s, s.uploaders[u], Cycle(ids, locked))) == Some(db)
    requires forall id :: id in ids ==> !IsHeld(s.uploaders, id)
    ensures IsWithinBudget(cfg, AfterUpload(cfg, s, u, Cycle(ids, locked), db))
  {
    hide CanUpload, UploadOps, NextUploader, IsClaimResult, RowsFit, UploadersFit;
    CycleIsIdle(cfg, s, s.uploaders[u], ids, locked);
    var claimed, after := ClaimRuns(cfg, s, s.uploaders[u], ids, locked);
    ClaimedTablesFit(cfg, s, u, ids, claimed, after);
    assert NewlyCarried(s.uploaders[u], Cycle(ids, locked)) == multiset{};
    assert AfterUpload(cfg, s, u, Cycle(ids, locked), db).carried == s.carried;
  }

  lemma CrashKeepsBudget(cfg: Config, s: System, u: nat)
    requires IsWithinBudget(cfg, s) && u < |s.uploaders|
    ensures IsWithinBudget(cfg, AfterUpload(cfg, s, u, Crash, s.db))
  {
    assert NewlyCarried(s.uploaders[u], Crash) == multiset{};
    OthersStillFit(cfg, s, u, FRESH_UPLOADER, s.db, s.carried);
    assert AfterUpload(cfg, s, u, Crash, s.db).carried == s.carried;
  }

  // --- Over runs ---

  lemma StepKeepsBudget(cfg: Config, s: System, a: Action)
    requires AllSound(s.db.events) && IsExclusive(s.db, s.uploaders) && IsWithinBudget(cfg, s)
    requires IsEnabled(cfg, s, a) && !TakesHeldRow(s, a)
    ensures Do(cfg, s, a).Some? && IsWithinBudget(cfg, Do(cfg, s, a).value)
  {
    ExclusiveUntilHeldRowTaken(cfg, s, a);
    if !a.Upload? {
      OthersKeepBudget(cfg, s, a);
    } else {
      var db := Run(s.db, LedgerOps(cfg, s, a)).value;
      if a.step.Cycle? {
        ClaimKeepsBudget(cfg, s, a.u, a.step.ids, a.step.locked, db);
      } else if a.step.Crash? {
        CrashKeepsBudget(cfg, s, a.u);
      } else if IsRequest(a.step) {
        SendKeepsBudget(cfg, s, a.u, a.step);
      } else {
        SettleKeepsBudget(cfg, s, a.u, a.step, db);
      }
    }
  }

  lemma {:induction false} BudgetInTimelyRuns(cfg: Config, uploaders: nat, run: seq<Action>)
    requires IsRun(cfg, uploaders, run) && IsTimelyRun(cfg, uploaders, run)
    ensures IsWithinBudget(cfg, StateAfter(cfg, uploaders, run))
    decreases |run|
  {
    if run != [] {
      RunSplits(cfg, uploaders, run);
      TimelyPrefix(cfg, uploaders, run);
      var before, a := run[..|run| - 1], run[|run| - 1];
      BudgetInTimelyRuns(cfg, uploaders, before);
      OneHolderInTimelyRuns(cfg, uploaders, before);
      if a.Upload? && a.step.Cycle? {
        TimelyClaimsAreSafe(cfg, StateAfter(cfg, uploaders, before), a);
      }
      TablesSoundInEveryRun(cfg, uploaders, before);
      StepKeepsBudget(cfg, StateAfter(cfg, uploaders, before), a);
    }
  }

  /**
   * With every lease renewed in time, no row ever shows more than `maxRowAttempts` attempts plus one
   * batch's worth, and fewer requests than that carried it since it was last queued.
   */
  lemma AttemptsAreBounded(cfg: Config, uploaders: nat, run: seq<Action>, id: EventId)
    requires IsRun(cfg, uploaders, run) && IsTimelyRun(cfg, uploaders, run)
    requires cfg.uploader.maxAttempts >= 1
    ensures var s := StateAfter(cfg, uploaders, run);
            && s.carried[id] <= cfg.uploader.maxRowAttempts + cfg.uploader.maxAttempts - 1
            && (id in s.db.events ==>
                  s.carried[id] <= s.db.events[id].attemptCount
                  <= cfg.uploader.maxRowAttempts + cfg.uploader.maxAttempts)
  {
    BudgetInTimelyRuns(cfg, uploaders, run);
    var s := StateAfter(cfg, uploaders, run);
    assert id in s.db.events ==> RowFits(Limit(cfg), s.db.events[id], s.carried[id]);
    assert id !in s.db.events ==> id !in s.carried;
  }

  // --- Sending comes to an end ---

  /** How many more rows can be sent before something is ingested or replayed. */
  function Remaining(cfg: Config, s: System): int {
    (Limit(cfg) - 1) * |s.db.events| - |s.carried|
  }

  /** The rows carried by the request of this action. */
  function RowsSent(s: System, a: Action): nat {
    if a.Upload? && a.u < |s.uploaders| then |NewlyCarried(s.uploaders[a.u], a.step)| else 0
  }

  lemma OneMore(most: nat, n: nat)
    ensures most * (n + 1) == most * n + most
  {
  }

  lemma {:induction false} BoundedMultiset(m: multiset<EventId>, keys: set<EventId>, most: nat)
    requires forall id :: id in m ==> id in keys && m[id] <= most
    ensures |m| <= most * |keys|
    decreases keys
  {
    if keys == {} {
      assert m == multiset{};
    } else {
      var id :| id in keys;
      var rest := m[id := 0];
      assert m == rest + multiset{}[id := m[id]];
      BoundedMultiset(rest, keys - {id}, most);
      OneMore(most, |keys - {id}|);
    }
  }

  lemma RemainingIsNatural(cfg: Config, s: System)
    requires IsWithinBudget(cfg, s)
    ensures Remaining(cfg, s) >= 0
  {
    assert forall id :: id in s.carried ==> RowFits(Limit(cfg), s.db.events[id], s.carried[id]);
    BoundedMultiset(s.carried, s.db.events.Keys, Limit(cfg) - 1);
  }

  /** Everything but an ingest or a committed replay. */
  predicate BringsNoWork(a: Action) {
    !a.IngestLead? && !a.IngestInvalid? && !a.ReplayCommit?
  }

  /** Each step lowers the measure by exactly the rows it sends. */
  lemma SendingUsesUp(cfg: Config, s: System, a: Action)
    requires Do(cfg, s, a).Some? && BringsNoWork(a) && Run(s.db, LedgerOps(cfg, s, a)).Some?
    ensures Remaining(cfg, Do(cfg, s, a).value) == Remaining(cfg, s) - RowsSent(s, a)
  {
    var db, raised := StepForm(cfg, s, a);
    var next := AfterAction(cfg, s, a, db);
    OnlyDbMatters(cfg, s, a, db);
    SameRows(cfg, s, a, db);
    assert |next.db.events| == |s.db.events|;
    assert |next.carried| == |s.carried| + RowsSent(s, a);
  }

  lemma SameRows(cfg: Config, s: System, a: Action, db: Db)
    requires BringsNoWork(a) && IsEnabled(cfg, s, a) && Run(s.db, LedgerOps(cfg, s, a)) == Some(db)
    ensures |db.events| == |s.db.events|
  {
    if a.ProcessDelivery? {
      var m := s.queue.inflight[a.ack].message;
      if s.db.Has(m.eventId, Queued) {
        ProcessingKeepsRows(cfg.lib, s.db, m, s.clock);
      }
    } else {
      OtherActionsKeepDigests(cfg, s, a, db);
    }
    assert db.events.Keys == s.db.events.Keys;
    assert |db.events| == |db.events.Keys|;
  }

  /** The rows sent by the actions of the run after the first k. */
  ghost function RowsSentAfter(cfg: Config, uploaders: nat, run: seq<Action>, k: nat): nat
    requires IsRun(cfg, uploaders, run) && k <= |run|
    decreases |run|
  {
    if k == |run| then 0
    else
      RunSplits(cfg, uploaders, run);
      var before := run[..|run| - 1];
      RowsSentAfter(cfg, uploaders, before, k) + RowsSent(StateAfter(cfg, uploaders, before), run[|run| - 1])
  }

  /**
   * From any point on, for as long as nothing is ingested or replayed, the rows sent add up to no more
   * than what the measure was at that point: sending ends.
   */
  lemma {:induction false} SendingIsFinite(cfg: Config, uploaders: nat, run: seq<Action>, k: nat)
    requires IsRun(cfg, uploaders, run) && IsTimelyRun(cfg, uploaders, run) && k <= |run|
    requires forall i :: k <= i < |run| ==> BringsNoWork(run[i])
    ensures IsRun(cfg, uploaders, run[..k])
    ensures RowsSentAfter(cfg, uploaders, run, k)
            == Remaining(cfg, StateAfter(cfg, uploaders, run[..k])) - Remaining(cfg, StateAfter(cfg, uploaders, run))
    ensures RowsSentAfter(cfg, uploaders, run, k) <= Remaining(cfg, StateAfter(cfg, uploaders, run[..k]))
    decreases |run|
  {
    BudgetInTimelyRuns(cfg, uploaders, run);
    RemainingIsNatural(cfg, StateAfter(cfg, uploaders, run));
    if k == |run| {
      assert run[..k] == run;
    } else {
      RunSplits(cfg, uploaders, run);
      TimelyPrefix(cfg, uploaders, run);
      var before, a := run[..|run| - 1], run[|run| - 1];
      assert before[..k] == run[..k];
      SendingIsFinite(cfg, uploaders, before, k);
      NothingRaisesInTimelyRuns(cfg, uploaders, before, a);
      SendingUsesUp(cfg, StateAfter(cfg, uploaders, before), a);
    }
  }
}

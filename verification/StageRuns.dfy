/**
 * The procedures of ingest, worker, operator and uploader, against the machine: whatever the contract of one
 * call allows is what a run of the machine's own actions does, so what holds in every run holds for them.
 */
module StageRuns {
  import opened Wrappers
  import opened Identifiers
  import opened Model
  import opened Ledger
  import opened Transactions
  import opened Processor
  import opened Queue
  import opened Batcher
  import opened DeadLetters
  import opened Stages
  import opened Uploader
  import opened Pipeline
  import opened LedgerInvariants
  import opened Provenance
  import opened NoSilentLoss
  import opened LeaseExclusivity
  import opened SoloDelivery

  lemma OneAction(cfg: Config, s: System, a: Action, end: System)
    requires Do(cfg, s, a) == Some(end)
    ensures Leads(cfg, s, [a], end)
  {
    assert [a] + [] == [a];
    OneMore(StepOf(cfg), s, a, end, [], end);
  }

  lemma TwoActions(cfg: Config, s: System, a: Action, mid: System, b: Action, end: System)
    requires Do(cfg, s, a) == Some(mid) && Do(cfg, mid, b) == Some(end)
    ensures Leads(cfg, s, [a, b], end)
  {
    assert [a] + [b] == [a, b];
    TwoSteps(StepOf(cfg), s, a, mid, b, end);
  }

  // --- Ingest ---

  /** One call of `Ingest`: the lead is ingested, then its message is published or, when that fails, lost. */
  lemma IngestIsRun(cfg: Config, s: System, lead: LeadEvent, publishFails: bool, db: Db, queue: QueueState)
    returns (actions: seq<Action>)
    requires forall id :: id in s.publishing ==> id in s.db.events
    requires Step(s.db, InsertValidated(lead, s.clock)) == Some(db)
    requires queue == if lead.eventId !in s.db.events && !publishFails
                      then Publish(s.queue, LeadMessage(lead, s.clock)) else s.queue
    ensures actions == if lead.eventId in s.db.events then [IngestLead(lead)]
                       else [IngestLead(lead), if publishFails then LosePublish(lead.eventId)
                                               else PublishLead(lead.eventId)]
    ensures Leads(cfg, s, actions,
                  s.(db := db, queue := queue,
                     ingested := if lead.eventId in s.db.events then s.ingested else s.ingested[lead.eventId := lead]))
  {
    var id := lead.eventId;
    SingleOp(s.db, InsertValidated(lead, s.clock));
    var mid := AfterAction(cfg, s, IngestLead(lead), db);
    assert Do(cfg, s, IngestLead(lead)) == Some(mid);
    if id in s.db.events {
      actions := [IngestLead(lead)];
      OneAction(cfg, s, IngestLead(lead), mid);
    } else {
      var second := if publishFails then LosePublish(id) else PublishLead(id);
      actions := [IngestLead(lead), second];
      var end := PublishOrLose(cfg, mid, id, publishFails);
      assert mid.publishing - {id} == s.publishing;
      TwoActions(cfg, s, IngestLead(lead), mid, second, end);
    }
  }

  lemma PublishOrLose(cfg: Config, s: System, id: EventId, fails: bool) returns (next: System)
    requires id in s.publishing
    ensures Do(cfg, s, if fails then LosePublish(id) else PublishLead(id)) == Some(next)
    ensures next == s.(publishing := s.publishing - {id},
                       queue := if fails then s.queue else Publish(s.queue, s.publishing[id]))
  {
    next := AfterAction(cfg, s, if fails then LosePublish(id) else PublishLead(id), s.db);
  }

  // --- Worker ---

  /** One call of `HandleDelivery`: commit and ack, or give the message back. */
  lemma HandlingIsRun(cfg: Config, s: System, ack: nat, raises: bool, db: Db, queue: QueueState)
    returns (actions: seq<Action>)
    requires ack in s.queue.inflight && ack !in s.committed
    requires raises ==> db == s.db && queue == Nack(s.queue, ack)
    requires !raises ==>
               Run(s.db, ProcessOps(cfg.lib, s.db, s.queue.inflight[ack].message, s.clock)) == Some(db)
               && queue == Ack(s.queue, ack)
    ensures actions == if raises then [ReturnDelivery(ack)] else [ProcessDelivery(ack), AckDelivery(ack)]
    ensures Leads(cfg, s, actions, s.(db := db, queue := queue))
  {
    hide ProcessOps;
    if raises {
      actions := [ReturnDelivery(ack)];
      var end := Returns(cfg, s, ack);
      assert s.committed - {ack} == s.committed;
      OneAction(cfg, s, ReturnDelivery(ack), end);
    } else {
      actions := [ProcessDelivery(ack), AckDelivery(ack)];
      var mid := Processes(cfg, s, ack, db);
      var end := Acks(cfg, mid, ack);
      assert (s.committed + {ack}) - {ack} == s.committed;
      TwoActions(cfg, s, ProcessDelivery(ack), mid, AckDelivery(ack), end);
    }
  }

  lemma Returns(cfg: Config, s: System, ack: nat) returns (next: System)
    requires ack in s.queue.inflight
    ensures Do(cfg, s, ReturnDelivery(ack)) == Some(next)
    ensures next == s.(queue := Nack(s.queue, ack), committed := s.committed - {ack})
  {
    next := AfterAction(cfg, s, ReturnDelivery(ack), s.db);
  }

  lemma Processes(cfg: Config, s: System, ack: nat, db: Db) returns (next: System)
    requires ack in s.queue.inflight && ack !in s.committed
    requires Run(s.db, ProcessOps(cfg.lib, s.db, s.queue.inflight[ack].message, s.clock)) == Some(db)
    ensures Do(cfg, s, ProcessDelivery(ack)) == Some(next)
    ensures next == s.(db := db, committed := s.committed + {ack})
  {
    next := AfterAction(cfg, s, ProcessDelivery(ack), db);
  }

  // --- Reconcile ---

  /** The actions that republish for the listed events that can be completed. */
  function Republishes(events: map<EventId, Event>, ids: seq<EventId>): seq<Action> {
    if ids == [] then []
    else
      var last := |ids| - 1;
      Republishes(events, ids[..last])
      + if ids[last] in events && IsRecoverable(events[ids[last]]) then [Republish(ids[last])] else []
  }

  lemma Republished(cfg: Config, s: System, id: EventId) returns (next: System)
    requires id in s.db.events && IsRecoverable(s.db.events[id])
    ensures Do(cfg, s, Republish(id)) == Some(next)
    ensures next == s.(queue := s.queue.(ready := s.queue.ready
                                                  + FreshEnvelopes([Message(id, NO_IDENTIFIERS, s.clock)])))
  {
    next := AfterAction(cfg, s, Republish(id), s.db);
  }

  /** One call of `Reconcile` with `republish`: one action per message. */
  lemma {:induction false} ReconcileIsRun(cfg: Config, s: System, stuck: seq<EventId>)
    ensures Leads(cfg, s, Republishes(s.db.events, stuck),
                  s.(queue := s.queue.(ready := s.queue.ready
                       + FreshEnvelopes(RepublishMessages(s.db.events, stuck, s.clock)))))
    decreases |stuck|
  {
    hide Do, IsRecoverable;
    if stuck == [] {
      assert s.queue.ready + FreshEnvelopes([]) == s.queue.ready;
    } else {
      var last := |stuck| - 1;
      var first, id := Republishes(s.db.events, stuck[..last]), stuck[last];
      var messages := RepublishMessages(s.db.events, stuck[..last], s.clock);
      ReconcileIsRun(cfg, s, stuck[..last]);
      var mid := s.(queue := s.queue.(ready := s.queue.ready + FreshEnvelopes(messages)));
      if id in s.db.events && IsRecoverable(s.db.events[id]) {
        var end := Republished(cfg, mid, id);
        OneAction(cfg, mid, Republish(id), end);
        EnvelopesAppend(s.queue.ready, messages, [Message(id, NO_IDENTIFIERS, s.clock)]);
        IterateFurther(StepOf(cfg), s, first, mid, [Republish(id)], end);
      } else {
        assert messages + [] == messages && first + [] == first;
      }
    }
  }

  // --- Replay ---

  /** One call of `ReplayOne` on a record that can be replayed: its message, then its row and its record. */
  lemma ReplayIsRun(cfg: Config, s: System, record: nat, db: Db) returns (end: System)
    requires CanReplay(s.db, record) && record !in s.replaying
    requires Step(s.db, Replay(record, s.clock)) == Some(db)
    ensures Leads(cfg, s, [ReplayPublish(record), ReplayCommit(record)], end)
    ensures end == s.(db := db, queue := s.queue.(ready := s.queue.ready
                                 + FreshEnvelopes([ReplayMessage(s.db, record, s.clock)])),
                      carried := s.carried[s.db.dead[record].eventId := 0])
  {
    hide Do, CanReplay;
    var mid := PublishesReplay(cfg, s, record);
    end := CommitsReplay(cfg, mid, record, db);
    assert (s.replaying + {record}) - {record} == s.replaying;
    TwoActions(cfg, s, ReplayPublish(record), mid, ReplayCommit(record), end);
  }

  lemma CommitsReplay(cfg: Config, s: System, record: nat, db: Db) returns (next: System)
    requires CanReplay(s.db, record) && record in s.replaying && Step(s.db, Replay(record, s.clock)) == Some(db)
    ensures Do(cfg, s, ReplayCommit(record)) == Some(next)
    ensures next == s.(db := db, replaying := s.replaying - {record},
                       carried := s.carried[s.db.dead[record].eventId := 0])
  {
    SingleOp(s.db, Replay(record, s.clock));
    next := AfterAction(cfg, s, ReplayCommit(record), db);
  }

  lemma CannotReplay(db: Db, record: nat, now: nat)
    requires record < |db.dead| && !CanReplay(db, record)
    ensures Step(db, Replay(record, now)) == Some(db)
  {
  }

  /** One call of `DlqReplay`, whatever its candidates: two actions for each of them that can be replayed in turn. */
  lemma {:induction false} DlqReplayIsRun(cfg: Config, s: System, records: seq<nat>, db: Db)
    returns (actions: seq<Action>, end: System)
    requires s.replaying == {} && Run(s.db, ReplayOps(records, s.clock)) == Some(db)
    requires forall i :: 0 <= i < |records| ==> records[i] < |s.db.dead|
    ensures Leads(cfg, s, actions, end)
    ensures forall i :: 0 <= i < |actions| ==> actions[i].ReplayPublish? || actions[i].ReplayCommit?
    ensures end == s.(db := db, carried := end.carried,
                      queue := s.queue.(ready := s.queue.ready
                        + FreshEnvelopes(ReplayMessages(s.db, records, s.clock))))
    decreases |records|
  {
    hide Do, CanReplay;
    if records == [] {
      actions, end := [], s;
      assert s.queue.ready + FreshEnvelopes([]) == s.queue.ready;
    } else {
      var record, rest := records[0], records[1..];
      assert ReplayOps(records, s.clock)[1..] == ReplayOps(rest, s.clock);
      var next := Step(s.db, Replay(record, s.clock)).value;
      RecordsStay(s.db, record, s.clock);
      if CanReplay(s.db, record) {
        var mid := ReplayIsRun(cfg, s, record, next);
        var more;
        more, end := DlqReplayIsRun(cfg, mid, rest, db);
        var first := [ReplayPublish(record), ReplayCommit(record)];
        actions := first + more;
        IterateFurther(StepOf(cfg), s, first, mid, more, end);
        EnvelopesAppend(s.queue.ready, [ReplayMessage(s.db, record, s.clock)],
                        ReplayMessages(next, rest, s.clock));
      } else {
        CannotReplay(s.db, record, s.clock);
        actions, end := DlqReplayIsRun(cfg, s, rest, db);
        assert [] + ReplayMessages(s.db, rest, s.clock) == ReplayMessages(s.db, rest, s.clock);
      }
    }
  }

  lemma RecordsStay(db: Db, record: nat, now: nat)
    requires Step(db, Replay(record, now)).Some?
    ensures |Step(db, Replay(record, now)).value.dead| == |db.dead|
  {
  }

  // --- The uploader's cycle ---

  /** One call of `ClaimAndBatch`: the claim, what waits after it, and the batch that is due. */
  lemma CycleIsStep(cfg: Config, s: System, u: nat, ids: seq<EventId>, locked: set<EventId>)
    returns (next: System)
    requires AllSound(s.db.events) && u < |s.uploaders| && s.uploaders[u].flight.Idle?
    requires |s.uploaders[u].waiting| <= cfg.batchSize
    requires IsSelection(s.db.events, s.clock, cfg.batchSize - |s.uploaders[u].waiting|, cfg.uploader.retryAfter,
                         cfg.uploader.staleAfter, locked, ids)
    ensures Do(cfg, s, Upload(u, Cycle(ids, locked))) == Some(next)
    ensures var up, (db, claimed) := s.uploaders[u], AfterClaim(s.db, ids, s.clock, cfg.uploader);
            && claimed.Some? && next.db == db && next.clock == s.clock && next.queue == s.queue
            && var (waits, batch) := Batched(BatchState(up.waiting, up.oldestAt), claimed.value, s.clock,
                                             cfg.batchSize, cfg.batchWait);
               next.uploaders
               == s.uploaders[u := UploaderState(waits.items, waits.oldestAt,
                                                 if batch.Some? then Ready(batch.value, 1, s.clock) else Idle)]
  {
    hide Batched, UploadOps, NextUploader, IsClaimResult, IsSelection, AllSound, ClaimTx;
    var k := cfg.uploader;
    ClaimAlwaysCommits(s.db, s.clock, cfg.batchSize - |s.uploaders[u].waiting|, k.retryAfter, k.staleAfter, locked,
                       ids, k.maxRowAttempts, k.customerId);
    var claimed, after := ClaimRuns(cfg, s, s.uploaders[u], ids, locked);
    UploadCommits(cfg, s, u, Cycle(ids, locked), after);
    next := AfterUpload(cfg, s, u, Cycle(ids, locked), after);
    CycleTables(cfg, s, s.uploaders[u], ids, locked);
  }

  lemma CycleTables(cfg: Config, s: System, up: UploaderState, ids: seq<EventId>, locked: set<EventId>)
    requires ClaimTx(s.db, ids, s.clock, cfg.uploader.maxRowAttempts, cfg.uploader.customerId).Some?
    ensures var k := cfg.uploader;
            var tx := ClaimTx(s.db, ids, s.clock, k.maxRowAttempts, k.customerId).value;
            && Run(s.db, UploadOps(cfg, s, up, Cycle(ids, locked))) == Some(tx.0)
            && NextUploader(cfg, s, up, Cycle(ids, locked)) == AfterClaiming(cfg, s.clock, up, tx.1)
  {
    var k := cfg.uploader;
    var mid := ClaimedTables(s.db, ids, s.clock);
    RunConcat(s.db, ClaimOps(ids, s.clock), CeilingOps(mid, ids, s.clock, k.maxRowAttempts, k.customerId));
  }
}

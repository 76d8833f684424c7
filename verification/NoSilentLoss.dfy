/** Every queued event has a message that will still be handled, except after two precisely known accidents. */
module NoSilentLoss {
  import opened Wrappers
  import opened Status
  import opened Identifiers
  import opened Model
  import opened Ledger
  import opened Transactions
  import opened Processor
  import opened Queue
  import opened Pipeline
  import opened AuditTrail
  import opened Provenance

  /** A message for the event is ready, or delivered and not committed, or still to be published. */
  ghost predicate IsLive(s: System, id: EventId) {
    || (exists i :: 0 <= i < |s.queue.ready| && s.queue.ready[i].message.eventId == id)
    || (exists ack :: ack in s.queue.inflight && ack !in s.committed && s.queue.inflight[ack].message.eventId == id)
    || id in s.publishing
  }

  /** Queued, with nothing left that would ever move it. */
  ghost predicate IsOrphan(s: System, id: EventId) {
    s.db.Has(id, Queued) && !IsLive(s, id)
  }

  /** Ack ids are handed out once, so a committed delivery is never mistaken for a later one. */
  predicate AcksAreFresh(s: System) {
    s.queue.IsFresh() && forall ack :: ack in s.committed ==> ack < s.queue.nextAck
  }

  lemma AcksStayFresh(cfg: Config, s: System, a: Action)
    requires AcksAreFresh(s) && Do(cfg, s, a).Some?
    ensures AcksAreFresh(Do(cfg, s, a).value)
  {
    hide NextUploader, UploadOps, CanUpload, LedgerOps;
    var db, raised := StepForm(cfg, s, a);
  }

  lemma {:induction false} UpdatesNeverQueue(db: Db, ops: seq<Op>)
    requires AreUpdates(ops) && Run(db, ops).Some?
    ensures forall id :: Run(db, ops).value.Has(id, Queued) ==> db.Has(id, Queued)
    decreases |ops|
  {
    if ops != [] {
      var next := Step(db, ops[0]).value;
      assert forall id :: next.Has(id, Queued) ==> db.Has(id, Queued);
      UpdatesNeverQueue(next, ops[1..]);
    }
  }

  /** Losing the publish of a lead, or committing a replay whose message is already gone. */
  ghost predicate StrandsEvent(s: System, a: Action, id: EventId) {
    || (a == LosePublish(id) && s.db.Has(id, Queued) && !IsLive(s.(publishing := s.publishing - {id}), id))
    || (a.ReplayCommit? && a.record < |s.db.dead| && s.db.dead[a.record].eventId == id && !IsLive(s, id))
  }

  /** An uploader's step queues nothing and touches no message. */
  lemma UploadStrandsNothing(cfg: Config, s: System, u: nat, step: UploadStep, db: Db, id: EventId)
    requires u < |s.uploaders| && Run(s.db, LedgerOps(cfg, s, Upload(u, step))) == Some(db)
    ensures IsOrphan(AfterAction(cfg, s, Upload(u, step), db), id) ==> IsOrphan(s, id)
  {
    hide NextUploader, UploadOps;
    UploadOpsAreUpdates(cfg, s, s.uploaders[u], step);
    UpdatesNeverQueue(s.db, UploadOps(cfg, s, s.uploaders[u], step));
    var next := AfterAction(cfg, s, Upload(u, step), db);
    assert next.queue == s.queue && next.committed == s.committed && next.publishing == s.publishing && next.db == db;
  }

  lemma UploadOpsAreUpdates(cfg: Config, s: System, up: UploaderState, step: UploadStep)
    requires Run(s.db, UploadOps(cfg, s, up, step)).Some?
    ensures AreUpdates(UploadOps(cfg, s, up, step))
  {
    if step.Cycle? {
      var mid := ClaimedTables(s.db, step.ids, s.clock);
      if HaveConversions(mid, step.ids) {
        CeilingOpsDeadLetter(mid, step.ids, s.clock, cfg.uploader.maxRowAttempts, cfg.uploader.customerId);
      } else {
        AbortRaises(s.db, ClaimOps(step.ids, s.clock));
      }
    }
  }

  lemma AbortRaises(db: Db, ops: seq<Op>)
    ensures Run(db, ops + [Abort]) == None
  {
    RunConcat(db, ops, [Abort]);
  }

  /** A worker's step: the event of the message is not queued any more, and other events keep their messages. */
  lemma ProcessingStrandsNothing(cfg: Config, s: System, ack: nat, db: Db, id: EventId)
    requires ack in s.queue.inflight && Run(s.db, LedgerOps(cfg, s, ProcessDelivery(ack))) == Some(db)
    requires IsOrphan(AfterAction(cfg, s, ProcessDelivery(ack), db), id)
    ensures IsOrphan(s, id)
  {
    var m := s.queue.inflight[ack].message;
    ProcessingMoves(cfg.lib, s.db, m, s.clock);
    var next := AfterAction(cfg, s, ProcessDelivery(ack), db);
    assert next.queue == s.queue && next.publishing == s.publishing && next.committed == s.committed + {ack};
  }

  lemma ReceivingStrandsNothing(s: System, id: EventId)
    requires AcksAreFresh(s) && s.queue.ready != []
    ensures IsLive(s.(queue := ReceiveOne(s.queue)), id) <==> IsLive(s, id)
  {
    var next := s.(queue := ReceiveOne(s.queue));
    if IsLive(s, id) {
      if i :| 0 <= i < |s.queue.ready| && s.queue.ready[i].message.eventId == id {
        if i == 0 {
          assert s.queue.nextAck in next.queue.inflight && s.queue.nextAck !in next.committed;
        } else {
          assert next.queue.ready[i - 1] == s.queue.ready[i];
        }
      }
    }
    if IsLive(next, id) {
      if i :| 0 <= i < |next.queue.ready| && next.queue.ready[i].message.eventId == id {
        assert s.queue.ready[i + 1] == next.queue.ready[i];
      } else if ack :| ack in next.queue.inflight && ack !in next.committed
                       && next.queue.inflight[ack].message.eventId == id {
        if ack == s.queue.nextAck {
          assert s.queue.ready[0].message.eventId == id;
        }
      }
    }
  }

  lemma ReturningStrandsNothing(s: System, ack: nat, id: EventId)
    requires ack in s.queue.inflight && IsLive(s, id)
    ensures IsLive(s.(queue := Nack(s.queue, ack), committed := s.committed - {ack}), id)
  {
    var next := s.(queue := Nack(s.queue, ack), committed := s.committed - {ack});
    var n := |s.queue.ready|;
    assert next.queue.ready[n].message == s.queue.inflight[ack].message;
    if i :| 0 <= i < n && s.queue.ready[i].message.eventId == id {
      assert next.queue.ready[i] == s.queue.ready[i];
    } else if other :| other in s.queue.inflight && other !in s.committed
                       && s.queue.inflight[other].message.eventId == id {
      if other == ack {
        assert next.queue.ready[n].message.eventId == id;
      } else {
        assert other in next.queue.inflight && other !in next.committed;
      }
    }
  }

  lemma PublishingKeepsLive(s: System, m: Message, id: EventId)
    requires IsLive(s, id) || m.eventId == id
    ensures IsLive(s.(queue := Publish(s.queue, m)), id)
  {
    var next := s.(queue := Publish(s.queue, m));
    assert next.queue.ready[|s.queue.ready|].message == m;
    if i :| 0 <= i < |s.queue.ready| && s.queue.ready[i].message.eventId == id {
      assert next.queue.ready[i] == s.queue.ready[i];
    }
  }

  // --- Step by step ---

  /** Actions that only move messages: whatever was live stays live. */
  lemma QueueActionsStrandNothing(cfg: Config, s: System, a: Action, db: Db, id: EventId)
    requires AcksAreFresh(s) && MessagesKnown(s) && IsEnabled(cfg, s, a)
    requires a.PublishLead? || a.Receive? || a.AckDelivery? || a.ReturnDelivery? || a.Republish? || a.ReplayPublish?
    requires IsLive(s, id)
    ensures IsLive(AfterAction(cfg, s, a, db), id)
  {
    hide AfterUpload, CanUpload;
    match a {
      case PublishLead(other) =>
        var m := s.publishing[other];
        PublishingKeepsLive(s, m, id);
        PublishedIsReady(s, other, id);
      case Receive => ReceivingStrandsNothing(s, id);
      case ReturnDelivery(ack) => ReturningStrandsNothing(s, ack, id);
      case Republish(other) => PublishingKeepsLive(s, Message(other, NO_IDENTIFIERS, s.clock), id);
      case ReplayPublish(record) =>
        PublishingKeepsLive(s, Message(s.db.dead[record].eventId, NO_IDENTIFIERS, s.clock), id);
      case AckDelivery(ack) =>
        AckingStrandsNothing(s, ack, id);
    }
  }

  lemma PublishedIsReady(s: System, other: EventId, id: EventId)
    requires other in s.publishing && s.publishing[other].eventId == other
    requires IsLive(s.(queue := Publish(s.queue, s.publishing[other])), id)
    ensures IsLive(s.(queue := Publish(s.queue, s.publishing[other]), publishing := s.publishing - {other}), id)
  {
    var queue := Publish(s.queue, s.publishing[other]);
    assert queue.ready[|s.queue.ready|].message.eventId == other;
  }

  lemma AckingStrandsNothing(s: System, ack: nat, id: EventId)
    requires ack in s.committed && IsLive(s, id)
    ensures IsLive(s.(queue := Ack(s.queue, ack), committed := s.committed - {ack}), id)
  {
    var next := s.(queue := Ack(s.queue, ack), committed := s.committed - {ack});
    if other :| other in s.queue.inflight && other !in s.committed && s.queue.inflight[other].message.eventId == id {
      assert other in next.queue.inflight && other !in next.committed;
    }
  }

  /** Ingest: a new row is queued together with the message that is about to be published. */
  lemma IngestStrandsNothing(cfg: Config, s: System, a: Action, db: Db, id: EventId)
    requires a.IngestLead? || a.IngestInvalid?
    requires Run(s.db, LedgerOps(cfg, s, a)) == Some(db) && IsOrphan(AfterAction(cfg, s, a, db), id)
    ensures IsOrphan(s, id)
  {
    match a {
      case IngestLead(lead) => SingleOp(s.db, InsertValidated(lead, s.clock));
      case IngestInvalid(other, source, sourceEventId, errors) =>
        SingleOp(s.db, InsertRejected(other, source, sourceEventId, errors, s.clock));
    }
    var next := AfterAction(cfg, s, a, db);
    assert next.queue == s.queue && next.committed == s.committed;
    assert IsLive(s, id) ==> IsLive(next, id);
  }

  lemma ReplayCommitStrands(cfg: Config, s: System, record: nat, db: Db, id: EventId)
    requires IsEnabled(cfg, s, ReplayCommit(record)) && Run(s.db, LedgerOps(cfg, s, ReplayCommit(record))) == Some(db)
    ensures var next := AfterAction(cfg, s, ReplayCommit(record), db);
            IsOrphan(next, id) && !IsOrphan(s, id) <==> StrandsEvent(s, ReplayCommit(record), id)
  {
    SingleOp(s.db, Replay(record, s.clock));
    var next := AfterAction(cfg, s, ReplayCommit(record), db);
    assert next.queue == s.queue && next.committed == s.committed && next.publishing == s.publishing;
    assert IsLive(next, id) <==> IsLive(s, id);
  }

  /** Actions that leave the tables alone and only keep or add messages. */
  lemma MessageActionsStrandNothing(cfg: Config, s: System, a: Action, db: Db, id: EventId)
    requires AcksAreFresh(s) && MessagesKnown(s) && IsEnabled(cfg, s, a)
    requires a.PublishLead? || a.Receive? || a.AckDelivery? || a.ReturnDelivery? || a.Republish? || a.ReplayPublish?
             || a.Tick? || a.ReplayAbort?
    ensures IsOrphan(AfterAction(cfg, s, a, db), id) ==> IsOrphan(s, id)
  {
    var next := AfterAction(cfg, s, a, db);
    assert next.db == s.db;
    if a.Tick? || a.ReplayAbort? {
      assert next.queue == s.queue && next.committed == s.committed && next.publishing == s.publishing;
    } else if IsLive(s, id) {
      QueueActionsStrandNothing(cfg, s, a, db, id);
    }
  }

  lemma OtherActionsStrandNothing(cfg: Config, s: System, a: Action, db: Db, id: EventId)
    requires AcksAreFresh(s) && MessagesKnown(s) && IsEnabled(cfg, s, a)
    requires !a.LosePublish? && !a.ReplayCommit?
    requires Run(s.db, LedgerOps(cfg, s, a)) == Some(db) && IsOrphan(AfterAction(cfg, s, a, db), id)
    ensures IsOrphan(s, id)
  {
    if a.Upload? {
      UploadStrandsNothing(cfg, s, a.u, a.step, db, id);
    } else if a.ProcessDelivery? {
      ProcessingStrandsNothing(cfg, s, a.ack, db, id);
    } else if a.IngestLead? || a.IngestInvalid? {
      IngestStrandsNothing(cfg, s, a, db, id);
    } else {
      MessageActionsStrandNothing(cfg, s, a, db, id);
    }
  }

  lemma LosePublishStrands(cfg: Config, s: System, lost: EventId, db: Db, id: EventId)
    requires lost in s.publishing
    ensures IsOrphan(AfterAction(cfg, s, LosePublish(lost), db), id) && !IsOrphan(s, id)
            <==> StrandsEvent(s, LosePublish(lost), id)
  {
    var next := AfterAction(cfg, s, LosePublish(lost), db);
    assert next == s.(publishing := s.publishing - {lost});
    if lost != id {
      assert IsLive(next, id) <==> IsLive(s, id);
    }
  }

  /**
   * A step strands an event exactly when it loses the publish of the event's lead or commits a replay
   * whose message was already consumed, and nothing else is under way for the event.
   */
  lemma StrandedExactlyBy(cfg: Config, s: System, a: Action, id: EventId)
    requires AcksAreFresh(s) && MessagesKnown(s) && Do(cfg, s, a).Some?
    ensures IsOrphan(Do(cfg, s, a).value, id) && !IsOrphan(s, id) <==> StrandsEvent(s, a, id)
  {
    var db, raised := StepForm(cfg, s, a);
    if a.LosePublish? || a.ReplayCommit? {
      NeverRaises(cfg, s, a);
      if a.LosePublish? {
        LosePublishStrands(cfg, s, a.id, db, id);
      } else {
        ReplayCommitStrands(cfg, s, a.record, db, id);
      }
    } else {
      assert !StrandsEvent(s, a, id);
      if raised {
        RaisingStrandsNothing(s, a, id);
      } else if IsOrphan(AfterAction(cfg, s, a, db), id) {
        OtherActionsStrandNothing(cfg, s, a, db, id);
      }
    }
  }

  lemma RaisingStrandsNothing(s: System, a: Action, id: EventId)
    requires a.Upload? ==> a.u < |s.uploaders|
    ensures IsOrphan(AfterException(s, a), id) <==> IsOrphan(s, id)
  {
    var next := AfterException(s, a);
    assert next.db == s.db && next.queue == s.queue && next.committed == s.committed && next.publishing == s.publishing;
  }

  lemma NeverRaises(cfg: Config, s: System, a: Action)
    requires IsEnabled(cfg, s, a) && (a.LosePublish? || a.ReplayCommit?)
    ensures Run(s.db, LedgerOps(cfg, s, a)).Some?
  {
    if a.ReplayCommit? {
      SingleOp(s.db, Replay(a.record, s.clock));
    }
  }

  // --- Over runs ---

  /** Some action of the run stranded the event in the state it was taken in. */
  ghost predicate WasStranded(cfg: Config, uploaders: nat, run: seq<Action>, id: EventId) {
    exists k :: 0 <= k < |run| && IsRun(cfg, uploaders, run[..k])
                && StrandsEvent(StateAfter(cfg, uploaders, run[..k]), run[k], id)
  }

  lemma {:induction false} AcksFreshInEveryRun(cfg: Config, uploaders: nat, run: seq<Action>)
    requires IsRun(cfg, uploaders, run)
    ensures AcksAreFresh(StateAfter(cfg, uploaders, run))
    decreases |run|
  {
    if run != [] {
      RunSplits(cfg, uploaders, run);
      AcksFreshInEveryRun(cfg, uploaders, run[..|run| - 1]);
      AcksStayFresh(cfg, StateAfter(cfg, uploaders, run[..|run| - 1]), run[|run| - 1]);
    }
  }

  lemma StrandedBefore(cfg: Config, uploaders: nat, run: seq<Action>, id: EventId)
    requires run != [] && WasStranded(cfg, uploaders, run[..|run| - 1], id)
    ensures WasStranded(cfg, uploaders, run, id)
  {
    var before := run[..|run| - 1];
    var k :| 0 <= k < |before| && IsRun(cfg, uploaders, before[..k])
             && StrandsEvent(StateAfter(cfg, uploaders, before[..k]), before[k], id);
    assert before[..k] == run[..k] && before[k] == run[k];
  }

  /** In every run, a queued event is still to be handled unless one of the two accidents struck it. */
  lemma {:induction false} NoSilentLossInEveryRun(cfg: Config, uploaders: nat, run: seq<Action>, id: EventId)
    requires IsRun(cfg, uploaders, run)
    ensures IsOrphan(StateAfter(cfg, uploaders, run), id) ==> WasStranded(cfg, uploaders, run, id)
    decreases |run|
  {
    if run != [] {
      RunSplits(cfg, uploaders, run);
      var before := run[..|run| - 1];
      NoSilentLossInEveryRun(cfg, uploaders, before, id);
      AcksFreshInEveryRun(cfg, uploaders, before);
      ProvenanceInEveryRun(cfg, uploaders, before);
      StrandedExactlyBy(cfg, StateAfter(cfg, uploaders, before), run[|run| - 1], id);
      if WasStranded(cfg, uploaders, before, id) {
        StrandedBefore(cfg, uploaders, run, id);
      }
    }
  }

  /** Nothing ready, nothing delivered, nothing being published. */
  predicate IsIdle(s: System) {
    s.queue.ready == [] && s.queue.inflight == map[] && s.publishing == map[]
  }

  lemma PublishesReplay(cfg: Config, s: System, record: nat) returns (next: System)
    requires CanReplay(s.db, record)
    ensures Do(cfg, s, ReplayPublish(record)) == Some(next)
    ensures next == s.(queue := Publish(s.queue, Message(s.db.dead[record].eventId, NO_IDENTIFIERS, s.clock)),
                       replaying := s.replaying + {record})
  {
    next := AfterAction(cfg, s, ReplayPublish(record), s.db);
  }

  lemma HandsOut(cfg: Config, s: System) returns (next: System)
    requires s.queue.ready != []
    ensures Do(cfg, s, Receive) == Some(next) && next == s.(queue := ReceiveOne(s.queue))
  {
    next := AfterAction(cfg, s, Receive, s.db);
  }

  /** The message of a replay is published and handed out, and the replay is not committed. */
  lemma RaceHandsOut(cfg: Config, uploaders: nat, run: seq<Action>, s: System, record: nat) returns (next: System)
    requires After(cfg, uploaders, run) == Some(s) && AcksAreFresh(s) && IsIdle(s) && CanReplay(s.db, record)
    ensures After(cfg, uploaders, run + [ReplayPublish(record)] + [Receive]) == Some(next)
    ensures next.db == s.db && next.publishing == map[] && record in next.replaying && next.queue.ready == []
    ensures next.queue.inflight.Keys == {s.queue.nextAck} && s.queue.nextAck !in next.committed
    ensures next.queue.inflight[s.queue.nextAck].message.eventId == s.db.dead[record].eventId
  {
    hide Do, After;
    var published := PublishesReplay(cfg, s, record);
    RunReaches(cfg, uploaders, run, ReplayPublish(record), s, published);
    next := HandsOut(cfg, published);
    RunReaches(cfg, uploaders, run + [ReplayPublish(record)], Receive, published, next);
  }

  lemma Skips(cfg: Config, s: System, ack: nat) returns (next: System)
    requires ack in s.queue.inflight && ack !in s.committed
    requires s.db.Has(s.queue.inflight[ack].message.eventId, DeadLettered)
    ensures Do(cfg, s, ProcessDelivery(ack)) == Some(next) && next == s.(committed := s.committed + {ack})
  {
    assert ProcessOps(cfg.lib, s.db, s.queue.inflight[ack].message, s.clock) == [];
    next := AfterAction(cfg, s, ProcessDelivery(ack), s.db);
  }

  lemma Acks(cfg: Config, s: System, ack: nat) returns (next: System)
    requires ack in s.queue.inflight && ack in s.committed
    ensures Do(cfg, s, AckDelivery(ack)) == Some(next)
    ensures next == s.(queue := Ack(s.queue, ack), committed := s.committed - {ack})
  {
    next := AfterAction(cfg, s, AckDelivery(ack), s.db);
  }

  /** The worker finds the event still dead-lettered, skips it and acks. */
  lemma RaceSkips(cfg: Config, uploaders: nat, run: seq<Action>, s: System, ack: nat) returns (next: System)
    requires After(cfg, uploaders, run) == Some(s) && s.queue.ready == [] && s.publishing == map[]
    requires s.queue.inflight.Keys == {ack} && ack !in s.committed
    requires s.db.Has(s.queue.inflight[ack].message.eventId, DeadLettered)
    ensures After(cfg, uploaders, run + [ProcessDelivery(ack)] + [AckDelivery(ack)]) == Some(next)
    ensures next.db == s.db && next.replaying == s.replaying && IsIdle(next)
  {
    hide Do, After;
    var skipped := Skips(cfg, s, ack);
    RunReaches(cfg, uploaders, run, ProcessDelivery(ack), s, skipped);
    next := Acks(cfg, skipped, ack);
    RunReaches(cfg, uploaders, run + [ProcessDelivery(ack)], AckDelivery(ack), skipped, next);
  }

  lemma RaceCommits(cfg: Config, uploaders: nat, run: seq<Action>, s: System, record: nat)
    requires After(cfg, uploaders, run) == Some(s) && IsIdle(s) && record in s.replaying && CanReplay(s.db, record)
    ensures IsRun(cfg, uploaders, run + [ReplayCommit(record)])
    ensures IsOrphan(StateAfter(cfg, uploaders, run + [ReplayCommit(record)]), s.db.dead[record].eventId)
  {
    var id := s.db.dead[record].eventId;
    assert !IsLive(s, id);
    NeverRaises(cfg, s, ReplayCommit(record));
    RunExtends(cfg, uploaders, run, ReplayCommit(record));
    ProvenanceInEveryRun(cfg, uploaders, run);
    AcksFreshInEveryRun(cfg, uploaders, run);
    StrandedExactlyBy(cfg, s, ReplayCommit(record), id);
  }

  /**
   * The publish-before-commit order of a replay is enough to lose an event: whenever a dead-lettered
   * event can be replayed and the queue is idle, a worker that is fast enough strands it.
   */
  lemma ReplayRaceStrands(cfg: Config, uploaders: nat, run: seq<Action>, record: nat)
    requires IsRun(cfg, uploaders, run) && CanReplay(StateAfter(cfg, uploaders, run).db, record)
    requires IsIdle(StateAfter(cfg, uploaders, run))
    ensures var s := StateAfter(cfg, uploaders, run);
            var ack := s.queue.nextAck;
            var race := run + [ReplayPublish(record)] + [Receive] + [ProcessDelivery(ack)] + [AckDelivery(ack)]
                        + [ReplayCommit(record)];
            IsRun(cfg, uploaders, race) && IsOrphan(StateAfter(cfg, uploaders, race), s.db.dead[record].eventId)
  {
    var s := StateAfter(cfg, uploaders, run);
    var ack := s.queue.nextAck;
    AcksFreshInEveryRun(cfg, uploaders, run);
    var delivered := RaceHandsOut(cfg, uploaders, run, s, record);
    var half := run + [ReplayPublish(record)] + [Receive];
    var skipped := RaceSkips(cfg, uploaders, half, delivered, ack);
    RaceCommits(cfg, uploaders, half + [ProcessDelivery(ack)] + [AckDelivery(ack)], skipped, record);
  }
}

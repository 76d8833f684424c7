/** Where every message and every stored digest comes from, in any interleaving of redelivery, replay and reconcile. */
module Provenance {
  import opened Wrappers
  import opened Status
  import opened Identifiers
  import opened Model
  import opened Ledger
  import opened LedgerInvariants
  import opened Processor
  import opened Queue
  import opened Pipeline
  import opened AuditTrail

  /** A message names a ledger row and carries the identifiers its lead arrived with, or none. */
  predicate IsKnown(events: map<EventId, Event>, ingested: map<EventId, LeadEvent>, m: Message) {
    && m.eventId in events && m.eventId in ingested
    && (m.identifiers == NO_IDENTIFIERS || m.identifiers == ingested[m.eventId].identifiers)
  }

  predicate QueueKnown(events: map<EventId, Event>, ingested: map<EventId, LeadEvent>, q: QueueState) {
    && (forall i :: 0 <= i < |q.ready| ==> IsKnown(events, ingested, q.ready[i].message))
    && (forall ack :: ack in q.inflight ==> IsKnown(events, ingested, q.inflight[ack].message))
  }

  predicate PublishingKnown(events: map<EventId, Event>, ingested: map<EventId, LeadEvent>,
                            publishing: map<EventId, Message>)
  {
    forall id :: id in publishing ==> publishing[id].eventId == id && IsKnown(events, ingested, publishing[id])
  }

  predicate MessagesKnown(s: System) {
    QueueKnown(s.db.events, s.ingested, s.queue) && PublishingKnown(s.db.events, s.ingested, s.publishing)
  }

  /** The digests of the lead's own identifiers, or, with a click id only, those of the empty record. */
  predicate ComeFrom(lib: Libraries, facts: Facts, raw: RawIdentifiers, digests: HashedIdentifiers) {
    digests == CleanIdentifiers(lib, raw)
    || (facts.HasClickId() && digests == CleanIdentifiers(lib, NO_IDENTIFIERS))
  }

  predicate IsTraceable(lib: Libraries, ingested: map<EventId, LeadEvent>, id: EventId, e: Event) {
    && (e.facts.matchKeyType.Some? ==> id in ingested)
    && (e.digests.Some? ==> id in ingested && ComeFrom(lib, e.facts, ingested[id].identifiers, e.digests.value))
  }

  predicate DigestsKnown(lib: Libraries, events: map<EventId, Event>, ingested: map<EventId, LeadEvent>) {
    forall id :: id in events ==> IsTraceable(lib, ingested, id, events[id])
  }

  predicate IngestedGrows(before: map<EventId, LeadEvent>, after: map<EventId, LeadEvent>) {
    forall id :: id in before ==> id in after && after[id] == before[id]
  }

  // --- Messages ---

  lemma KnownMessagesStay(s: System, events: map<EventId, Event>, ingested: map<EventId, LeadEvent>)
    requires MessagesKnown(s) && IngestedGrows(s.ingested, ingested)
    requires forall id :: id in s.db.events ==> id in events
    ensures QueueKnown(events, ingested, s.queue) && PublishingKnown(events, ingested, s.publishing)
  {
  }

  /** Queue operations keep every message known, and so does publishing a known one. */
  lemma QueueStaysKnown(events: map<EventId, Event>, ingested: map<EventId, LeadEvent>, q: QueueState)
    requires QueueKnown(events, ingested, q)
    ensures QueueKnown(events, ingested, ReceiveOne(q))
    ensures forall ack :: QueueKnown(events, ingested, Ack(q, ack))
    ensures forall ack :: QueueKnown(events, ingested, Nack(q, ack))
    ensures forall m :: IsKnown(events, ingested, m) ==> QueueKnown(events, ingested, Publish(q, m))
  {
  }

  /** The action is about an event that exists and was ingested, where it is about one at all. */
  predicate IsAboutKnown(s: System, a: Action, db: Db) {
    && (a.Upload? ==> a.u < |s.uploaders|)
    && (a.IngestLead? ==> a.lead.eventId in db.events)
    && (a.Republish? ==> a.id in s.db.events && a.id in s.ingested)
    && (a.ReplayPublish? ==>
          a.record < |s.db.dead| && s.db.dead[a.record].eventId in s.db.events
          && s.db.dead[a.record].eventId in s.ingested)
  }

  lemma IngestedAfter(cfg: Config, s: System, a: Action, db: Db)
    requires IsAboutKnown(s, a, db) && forall id :: id in s.ingested ==> id in s.db.events
    ensures IngestedGrows(s.ingested, AfterAction(cfg, s, a, db).ingested)
    ensures !a.IngestLead? ==> AfterAction(cfg, s, a, db).ingested == s.ingested
  {
    hide NextUploader;
  }

  lemma MessagesAfter(cfg: Config, s: System, a: Action, db: Db)
    requires MessagesKnown(s) && IsAboutKnown(s, a, db)
    requires forall id :: id in s.db.events ==> id in db.events
    requires forall id :: id in s.ingested ==> id in s.db.events
    ensures MessagesKnown(AfterAction(cfg, s, a, db))
  {
    hide QueueKnown, NextUploader, Publish, ReceiveOne, Ack, Nack;
    var next := AfterAction(cfg, s, a, db);
    IngestedAfter(cfg, s, a, db);
    KnownMessagesStay(s, next.db.events, next.ingested);
    QueueStaysKnown(next.db.events, next.ingested, s.queue);
  }

  // --- Digests ---

  /** The same rows, each with the digests and the first columns it had. */
  predicate KeepsDigests(before: map<EventId, Event>, after: map<EventId, Event>) {
    after.Keys == before.Keys
    && forall id :: id in before ==> after[id].digests == before[id].digests && after[id].facts == before[id].facts
  }

  lemma {:induction false} RunKeepsDigests(db: Db, ops: seq<Op>)
    requires AreOrdinary(ops) && Run(db, ops).Some?
    ensures KeepsDigests(db.events, Run(db, ops).value.events)
    decreases |ops|
  {
    if ops != [] {
      var next := Step(db, ops[0]).value;
      assert KeepsDigests(db.events, next.events);
      RunKeepsDigests(next, ops[1..]);
    }
  }

  lemma DigestsStay(lib: Libraries, before: map<EventId, Event>, after: map<EventId, Event>,
                    ingested: map<EventId, LeadEvent>)
    requires DigestsKnown(lib, before, ingested) && KeepsDigests(before, after)
    ensures DigestsKnown(lib, after, ingested)
  {
    forall id | id in after ensures IsTraceable(lib, ingested, id, after[id]) {
      assert IsTraceable(lib, ingested, id, before[id]);
    }
  }

  /** What the processor stores comes from the lead's own identifiers or, with a click id, from none. */
  lemma DecisionIsTraceable(lib: Libraries, ingested: map<EventId, LeadEvent>, id: EventId, e: Event,
                            identifiers: RawIdentifiers)
    requires IsTraceable(lib, ingested, id, e) && id in ingested
    requires identifiers == NO_IDENTIFIERS || identifiers == ingested[id].identifiers
    requires Decide(lib, e, identifiers).Process?
    ensures ComeFrom(lib, e.facts, ingested[id].identifiers, Decide(lib, e, identifiers).digests)
  {
    EmptyRecordOnlyLacksKey(lib, e.facts.HasClickId());
  }

  lemma ProcessingKeepsDigests(lib: Libraries, db: Db, ingested: map<EventId, LeadEvent>, m: Message, now: nat)
    requires DigestsKnown(lib, db.events, ingested) && IsKnown(db.events, ingested, m)
    ensures Run(db, ProcessOps(lib, db, m, now)).Some?
    ensures DigestsKnown(lib, Run(db, ProcessOps(lib, db, m, now)).value.events, ingested)
  {
    ProcessingMoves(lib, db, m, now);
    if db.Has(m.eventId, Queued) {
      var e := db.events[m.eventId];
      var change := Decide(lib, e, m.identifiers);
      if change.Process? {
        DecisionIsTraceable(lib, ingested, m.eventId, e, m.identifiers);
      }
      ProcessedRow(lib, db, m, now);
      var after := Changed(e, change, now).value;
      assert IsTraceable(lib, ingested, m.eventId, e);
      assert IsTraceable(lib, ingested, m.eventId, after);
    }
  }

  lemma ProcessedRow(lib: Libraries, db: Db, m: Message, now: nat)
    requires db.Has(m.eventId, Queued)
    ensures var changed := Changed(db.events[m.eventId], Decide(lib, db.events[m.eventId], m.identifiers), now);
            && changed.Some?
            && Run(db, ProcessOps(lib, db, m, now)) == Some(WithEvent(db, m.eventId, changed.value))
            && (Decide(lib, db.events[m.eventId], m.identifiers).Process? ==>
                  changed.value.digests == Some(Decide(lib, db.events[m.eventId], m.identifiers).digests))
            && (!Decide(lib, db.events[m.eventId], m.identifiers).Process? ==>
                  changed.value.digests == db.events[m.eventId].digests)
            && changed.value.facts == db.events[m.eventId].facts
  {
    var ops := ProcessOps(lib, db, m, now);
    assert ops[1..] == [];
    assert Run(db, ops) == Step(db, ops[0]);
  }

  lemma IngestKeepsDigests(lib: Libraries, db: Db, ingested: map<EventId, LeadEvent>, lead: LeadEvent, now: nat)
    requires DigestsKnown(lib, db.events, ingested) && lead.eventId !in db.events
    requires forall id :: id in ingested ==> id in db.events
    ensures DigestsKnown(lib, db.events[lead.eventId := QueuedEvent(lead.FactsAt(now), now)],
                         ingested[lead.eventId := lead])
  {
    var after := db.events[lead.eventId := QueuedEvent(lead.FactsAt(now), now)];
    forall id | id in after ensures IsTraceable(lib, ingested[lead.eventId := lead], id, after[id]) {
      if id != lead.eventId {
        assert IsTraceable(lib, ingested, id, db.events[id]);
      }
    }
  }

  // --- The invariant over runs ---

  predicate IsProvenanced(cfg: Config, s: System) {
    && (forall id :: id in s.ingested ==> id in s.db.events)
    && MessagesKnown(s) && DigestsKnown(cfg.lib, s.db.events, s.ingested)
  }

  /** An event that can be replayed or republished was ingested as a valid lead. */
  lemma RecoverableWasIngested(cfg: Config, s: System, id: EventId)
    requires AllSound(s.db.events) && DigestsKnown(cfg.lib, s.db.events, s.ingested) && id in s.db.events
    requires IsRecoverable(s.db.events[id]) || s.db.Has(id, DeadLettered)
    ensures id in s.ingested
  {
    assert IsSound(s.db.events[id]) && IsTraceable(cfg.lib, s.ingested, id, s.db.events[id]);
  }

  lemma EnabledIsAboutKnown(cfg: Config, s: System, a: Action, db: Db)
    requires AllSound(s.db.events) && IsProvenanced(cfg, s) && IsEnabled(cfg, s, a)
    requires a.IngestLead? ==> a.lead.eventId in db.events
    ensures IsAboutKnown(s, a, db)
  {
    if a.Republish? {
      RecoverableWasIngested(cfg, s, a.id);
    } else if a.ReplayPublish? {
      RecoverableWasIngested(cfg, s, s.db.dead[a.record].eventId);
    }
  }

  lemma OtherActionsKeepDigests(cfg: Config, s: System, a: Action, db: Db)
    requires !a.IngestLead? && !a.IngestInvalid? && !a.ProcessDelivery?
    requires Run(s.db, LedgerOps(cfg, s, a)) == Some(db)
    ensures KeepsDigests(s.db.events, db.events)
  {
    OtherActionsAreOrdinary(cfg, s, a);
    RunKeepsDigests(s.db, LedgerOps(cfg, s, a));
  }

  lemma SingleOp(db: Db, op: Op)
    ensures Run(db, [op]) == Step(db, op)
  {
    assert [op][1..] == [];
  }

  lemma DigestsAfterIngest(cfg: Config, s: System, a: Action, db: Db)
    requires IsProvenanced(cfg, s) && (a.IngestLead? || a.IngestInvalid?) && Run(s.db, LedgerOps(cfg, s, a)) == Some(db)
    ensures var next := AfterAction(cfg, s, a, db);
            DigestsKnown(cfg.lib, next.db.events, next.ingested)
              && forall id :: id in next.ingested ==> id in next.db.events
  {
    match a {
      case IngestLead(lead) =>
        SingleOp(s.db, InsertValidated(lead, s.clock));
        if lead.eventId !in s.db.events {
          IngestKeepsDigests(cfg.lib, s.db, s.ingested, lead, s.clock);
        }
      case IngestInvalid(id, source, sourceEventId, errors) =>
        SingleOp(s.db, InsertRejected(id, source, sourceEventId, errors, s.clock));
        if id !in s.db.events {
          RejectedHasNoDigests(cfg.lib, s, id, source, sourceEventId, errors);
        }
    }
  }

  lemma DigestsAfter(cfg: Config, s: System, a: Action, db: Db)
    requires IsProvenanced(cfg, s) && IsEnabled(cfg, s, a) && Run(s.db, LedgerOps(cfg, s, a)) == Some(db)
    ensures var next := AfterAction(cfg, s, a, db);
            DigestsKnown(cfg.lib, next.db.events, next.ingested)
              && forall id :: id in next.ingested ==> id in next.db.events
  {
    if a.IngestLead? || a.IngestInvalid? {
      DigestsAfterIngest(cfg, s, a, db);
    } else {
      if a.ProcessDelivery? {
        ProcessingKeepsDigests(cfg.lib, s.db, s.ingested, s.queue.inflight[a.ack].message, s.clock);
        ProcessingKeepsRows(cfg.lib, s.db, s.queue.inflight[a.ack].message, s.clock);
      } else {
        OtherActionsKeepDigests(cfg, s, a, db);
        DigestsStay(cfg.lib, s.db.events, db.events, s.ingested);
      }
      OnlyDbMatters(cfg, s, a, db);
    }
  }

  lemma OnlyDbMatters(cfg: Config, s: System, a: Action, db: Db)
    requires a.Upload? ==> a.u < |s.uploaders|
    ensures AfterAction(cfg, s, a, db).db == s.db || AfterAction(cfg, s, a, db).db == db
    ensures !a.IngestLead? ==> AfterAction(cfg, s, a, db).ingested == s.ingested
  {
  }

  lemma ProcessingKeepsRows(lib: Libraries, db: Db, m: Message, now: nat)
    requires m.eventId in db.events && Run(db, ProcessOps(lib, db, m, now)).Some?
    ensures Run(db, ProcessOps(lib, db, m, now)).value.events.Keys == db.events.Keys
  {
    if db.Has(m.eventId, Queued) {
      ProcessedRow(lib, db, m, now);
    }
  }

  lemma RejectedHasNoDigests(lib: Libraries, s: System, id: EventId, source: Source, sourceEventId: string,
                             errors: string)
    requires DigestsKnown(lib, s.db.events, s.ingested)
    ensures DigestsKnown(lib, s.db.events[id := RejectedEvent(source, sourceEventId, errors, s.clock)], s.ingested)
  {
    forall other | other in s.db.events ensures IsTraceable(lib, s.ingested, other, s.db.events[other]) {
    }
  }

  lemma StepKeepsProvenance(cfg: Config, s: System, a: Action)
    requires IsSoundDb(s.db) && IsProvenanced(cfg, s) && Do(cfg, s, a).Some?
    ensures IsProvenanced(cfg, Do(cfg, s, a).value)
  {
    var db, raised := StepForm(cfg, s, a);
    if !raised {
      RowsRemain(cfg, s, a, db);
      EnabledIsAboutKnown(cfg, s, a, db);
      MessagesAfter(cfg, s, a, db);
      DigestsAfter(cfg, s, a, db);
    }
  }

  lemma RowsRemain(cfg: Config, s: System, a: Action, db: Db)
    requires IsSoundDb(s.db) && Run(s.db, LedgerOps(cfg, s, a)) == Some(db)
    ensures AllSound(s.db.events) && forall id :: id in s.db.events ==> id in db.events
    ensures a.IngestLead? ==> a.lead.eventId in db.events
  {
    OpsAreLicensed(cfg, s, a);
    RunKeepsSound(s.db, LedgerOps(cfg, s, a));
    if a.IngestLead? {
      SingleOp(s.db, InsertValidated(a.lead, s.clock));
    }
  }

  lemma {:induction false} ProvenanceInEveryRun(cfg: Config, uploaders: nat, run: seq<Action>)
    requires IsRun(cfg, uploaders, run)
    ensures IsProvenanced(cfg, StateAfter(cfg, uploaders, run))
    decreases |run|
  {
    if run != [] {
      RunSplits(cfg, uploaders, run);
      var before := run[..|run| - 1];
      ProvenanceInEveryRun(cfg, uploaders, before);
      TablesSoundInEveryRun(cfg, uploaders, before);
      StepKeepsProvenance(cfg, StateAfter(cfg, uploaders, before), run[|run| - 1]);
    }
  }

  /**
   * In every run, whatever was redelivered, replayed or republished: stored digests are those of the
   * identifiers the lead arrived with, or, for a click-id event only, those of the empty record; and an
   * event that was hashed has digests and both consents.
   */
  lemma DigestsInEveryRun(cfg: Config, uploaders: nat, run: seq<Action>, id: EventId)
    requires IsRun(cfg, uploaders, run) && id in StateAfter(cfg, uploaders, run).db.events
    ensures var s := StateAfter(cfg, uploaders, run);
            var e := s.db.events[id];
            && (e.digests.Some? ==>
                  id in s.ingested && ComeFrom(cfg.lib, e.facts, s.ingested[id].identifiers, e.digests.value))
            && (e.status in HASHED_STATES ==> e.digests.Some? && e.facts.consent.BothGranted())
  {
    var s := StateAfter(cfg, uploaders, run);
    ProvenanceInEveryRun(cfg, uploaders, run);
    TablesSoundInEveryRun(cfg, uploaders, run);
    assert IsTraceable(cfg.lib, s.ingested, id, s.db.events[id]);
    assert IsSound(s.db.events[id]);
  }

  /** No delivery ever finds its event missing, so the unknown-event outcome does not occur. */
  lemma NoOrphanMessages(cfg: Config, uploaders: nat, run: seq<Action>, ack: nat)
    requires IsRun(cfg, uploaders, run) && ack in StateAfter(cfg, uploaders, run).queue.inflight
    ensures var s := StateAfter(cfg, uploaders, run);
            OutcomeOf(cfg.lib, s.db, s.queue.inflight[ack].message) != SkippedUnknownEvent
  {
    ProvenanceInEveryRun(cfg, uploaders, run);
  }

  // --- Identifier-free messages ---

  /** An event that an identifier-free message can complete stays one. */
  lemma StillRecoverable(before: Event, after: Event)
    requires IsRecoverable(before) && Continues(before, after)
    ensures IsRecoverable(after)
  {
  }

  /** Replay and reconcile only publish for such events. */
  lemma OnlyRecoverableRepublished(cfg: Config, s: System, a: Action, id: EventId)
    requires IsSoundDb(s.db) && IsEnabled(cfg, s, a)
    requires a == Republish(id) || (a.ReplayPublish? && a.record < |s.db.dead| && s.db.dead[a.record].eventId == id)
    ensures id in s.db.events && IsRecoverable(s.db.events[id])
  {
    if a.ReplayPublish? {
      assert IsSound(s.db.events[id]);
    }
  }

  /**
   * Once reconcile or a replay has published for an event, no delivery of an identifier-free message ever
   * leads to its rejection, whatever happened in between.
   */
  lemma RepublishedNeverRejected(cfg: Config, uploaders: nat, run: seq<Action>, k: nat, id: EventId, ack: nat)
    requires IsRun(cfg, uploaders, run) && k < |run| && IsRun(cfg, uploaders, run[..k])
    requires var dead := StateAfter(cfg, uploaders, run[..k]).db.dead;
             run[k] == Republish(id)
             || (run[k].ReplayPublish? && run[k].record < |dead| && dead[run[k].record].eventId == id)
    requires ack in StateAfter(cfg, uploaders, run).queue.inflight
    requires StateAfter(cfg, uploaders, run).queue.inflight[ack].message.eventId == id
    requires StateAfter(cfg, uploaders, run).queue.inflight[ack].message.identifiers == NO_IDENTIFIERS
    ensures var s := StateAfter(cfg, uploaders, run);
            OutcomeOf(cfg.lib, s.db, s.queue.inflight[ack].message) in {NowProcessed, NowSuppressed, SkippedNotQueued}
  {
    hide Do, After, IsExplained, Decide;
    var s, now := StateAfter(cfg, uploaders, run[..k]), StateAfter(cfg, uploaders, run);
    var next := run[..k + 1];
    PastNeverChanges(cfg, uploaders, run, k);
    PastNeverChanges(cfg, uploaders, run, k + 1);
    assert next[..|next| - 1] == run[..k] && next[|next| - 1] == run[k];
    RunSplits(cfg, uploaders, next);
    TablesSoundInEveryRun(cfg, uploaders, run[..k]);
    TablesSoundInEveryRun(cfg, uploaders, run);
    OnlyRecoverableRepublished(cfg, s, run[k], id);
    StillRecoverable(s.db.events[id], now.db.events[id]);
    QueuedEmptyOutcome(cfg.lib, now.db, now.queue.inflight[ack].message);
  }

  lemma QueuedEmptyOutcome(lib: Libraries, db: Db, m: Message)
    requires m.eventId in db.events && IsSound(db.events[m.eventId]) && IsRecoverable(db.events[m.eventId])
    requires m.identifiers == NO_IDENTIFIERS
    ensures OutcomeOf(lib, db, m) in {NowProcessed, NowSuppressed, SkippedNotQueued}
  {
    if db.events[m.eventId].status == Queued {
      EmptyMessageRejectedIff(lib, db.events[m.eventId]);
    }
  }
}

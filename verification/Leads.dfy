/** From the webhook to the ledger row and the decision on it: everything a row shows is its own lead's. */
module Leads {
  import opened Wrappers
  import opened Status
  import opened Consent
  import opened Identifiers
  import opened Fields
  import opened Model
  import opened Ledger
  import opened LedgerInvariants
  import opened Processor
  import opened Decisions
  import opened Queue
  import opened Pipeline
  import opened AuditTrail
  import opened Provenance
  import opened NoSilentLoss

  /** The columns that no later step may change are those of the lead. */
  predicate ShowsLead(facts: Facts, lead: LeadEvent) {
    && facts.source == lead.source && facts.sourceEventId == lead.sourceEventId
    && facts.conversion == Some(lead.conversion) && facts.clickId == lead.clickId
    && facts.consent.adUserData == lead.consent.adUserData
    && facts.consent.adPersonalization == lead.consent.adPersonalization
    && facts.matchKeyType == Some(if HasClick(lead) then ClickId else UserIdentifiers)
  }

  predicate HasClick(lead: LeadEvent) {
    lead.clickId.Some? && lead.clickId.value != ""
  }

  predicate BothConsents(lead: LeadEvent) {
    lead.consent.adUserData == Some(Granted) && lead.consent.adPersonalization == Some(Granted)
  }

  predicate LeadsShown(s: System) {
    forall id :: id in s.ingested ==>
      id in s.db.events && s.ingested[id].eventId == id && ShowsLead(s.db.events[id].facts, s.ingested[id])
  }

  lemma IngestShowsLead(cfg: Config, s: System, lead: LeadEvent, db: Db)
    requires LeadsShown(s) && Run(s.db, LedgerOps(cfg, s, IngestLead(lead))) == Some(db)
    ensures LeadsShown(AfterAction(cfg, s, IngestLead(lead), db))
  {
    SingleOp(s.db, InsertValidated(lead, s.clock));
  }

  lemma StepShowsLeads(cfg: Config, s: System, a: Action)
    requires IsSoundDb(s.db) && LeadsShown(s) && Do(cfg, s, a).Some?
    ensures LeadsShown(Do(cfg, s, a).value)
  {
    hide IsSoundDb, ShowsLead, LedgerOps, AfterAction, IsEnabled;
    var next := Do(cfg, s, a).value;
    var db, raised := StepForm(cfg, s, a);
    StepKeepsTables(cfg, s, a);
    if a.IngestLead? {
      if raised {
        assert next.db == s.db && next.ingested == s.ingested;
      } else {
        IngestShowsLead(cfg, s, a.lead, db);
      }
    } else {
      IngestedIsKept(cfg, s, a);
    }
  }

  lemma IngestedIsKept(cfg: Config, s: System, a: Action)
    requires Do(cfg, s, a).Some? && !a.IngestLead?
    ensures Do(cfg, s, a).value.ingested == s.ingested
  {
    hide LedgerOps, IsEnabled, NextUploader;
    var db, raised := StepForm(cfg, s, a);
    if !raised {
      OnlyDbMatters(cfg, s, a, db);
    }
  }

  lemma {:induction false} LeadsShownInEveryRun(cfg: Config, uploaders: nat, run: seq<Action>)
    requires IsRun(cfg, uploaders, run)
    ensures LeadsShown(StateAfter(cfg, uploaders, run))
    decreases |run|
  {
    if run != [] {
      RunSplits(cfg, uploaders, run);
      var before := run[..|run| - 1];
      LeadsShownInEveryRun(cfg, uploaders, before);
      TablesSoundInEveryRun(cfg, uploaders, before);
      StepShowsLeads(cfg, StateAfter(cfg, uploaders, before), run[|run| - 1]);
    }
  }

  /**
   * In every run, a row that was not rejected belongs to an ingested lead and shows, column by column, what
   * that lead said; a row whose digests were written belongs to a lead that granted both of its own signals.
   */
  lemma LeadColumnsInEveryRun(cfg: Config, uploaders: nat, run: seq<Action>, id: EventId)
    requires IsRun(cfg, uploaders, run) && id in StateAfter(cfg, uploaders, run).db.events
    ensures var s := StateAfter(cfg, uploaders, run);
            && (s.db.events[id].status != Rejected ==> id in s.ingested)
            && (id in s.ingested ==>
                  s.ingested[id].eventId == id && ShowsLead(s.db.events[id].facts, s.ingested[id]))
            && (s.db.events[id].status in {Processed, Uploading, FailedRetryable, Uploaded, DeadLettered} ==>
                  && id in s.ingested && BothConsents(s.ingested[id]) && s.db.events[id].digests.Some?
                  && (IdentifiesSomeone(cfg.lib, s.ingested[id].identifiers) || HasClick(s.ingested[id])))
  {
    hide Do, After, IsExplained;
    var s := StateAfter(cfg, uploaders, run);
    LeadsShownInEveryRun(cfg, uploaders, run);
    TablesSoundInEveryRun(cfg, uploaders, run);
    ProvenanceInEveryRun(cfg, uploaders, run);
    assert IsSound(s.db.events[id]) && IsTraceable(cfg.lib, s.ingested, id, s.db.events[id]);
    if id in s.ingested {
      DigestsIdentify(cfg.lib, s.db.events[id], s.ingested[id]);
    }
  }

  /** Digests that justify an upload without a click id come from a record that identifies somebody. */
  lemma DigestsIdentify(lib: Libraries, e: Event, lead: LeadEvent)
    requires IsFilled(e) && ShowsLead(e.facts, lead)
    requires e.digests.Some? ==> ComeFrom(lib, e.facts, lead.identifiers, e.digests.value)
    ensures e.digests.Some? ==> IdentifiesSomeone(lib, lead.identifiers) || HasClick(lead)
  {
    hide CleanIdentifiers, IdentifiesSomeone;
    KeyIffIdentifies(lib, lead.identifiers);
  }

  // --- The decision on a lead ---

  /** What the row of a lead shows once the lead's own message was handled. */
  ghost predicate IsLeadDecided(lib: Libraries, lead: LeadEvent, after: Event) {
    var usable := IsUsable(lib, lead.identifiers, HasClick(lead));
    && (after.status == Suppressed <==> !BothConsents(lead))
    && (after.status == Processed <==> BothConsents(lead) && usable)
    && (after.status == Rejected <==> BothConsents(lead) && !usable)
    && (after.status == Processed ==>
          after.statusReason == None && after.digests.Some?
          && StoresRecord(lib, lead.identifiers, after.digests.value))
    && (after.status == Suppressed ==>
          after.statusReason.Some? && after.statusReason.value.ConsentBlocked?
          && IsBlockedBy(lead.consent, after.statusReason.value.blocked))
    && (after.status == Rejected ==>
          after.statusReason.Some? && after.statusReason.value.FieldErrors?
          && Reports(after.statusReason.value.rejections,
                     (f, why) => IsObstacle(lib, lead.identifiers, HasClick(lead), f, why)))
  }

  lemma LeadDecision(lib: Libraries, lead: LeadEvent, before: Event, now: nat, after: Event)
    requires ShowsLead(before.facts, lead) && before.digests == None
    requires IsDecided(lib, before, lead.identifiers, now, after)
    ensures IsLeadDecided(lib, lead, after) && after.facts == before.facts
  {
    hide IsUsable, StoresRecord, Reports, IsObstacle, IsBlockedBy;
    var change :| IsRightDecision(lib, before, lead.identifiers, change) && Shows(before, change, now, after);
    assert before.facts.consent == lead.consent;
  }

  /**
   * In every run, handling the first message of a queued lead decides on that lead as it came in: suppressed
   * exactly without both of its consents, else processed with its own digests exactly when it is usable, else
   * rejected with exactly what is wrong with it. No other row changes.
   */
  lemma FirstMessageDecides(cfg: Config, uploaders: nat, run: seq<Action>, ack: nat)
    requires IsRun(cfg, uploaders, run)
    requires var s := StateAfter(cfg, uploaders, run);
             && ack in s.queue.inflight && ack !in s.committed
             && var m := s.queue.inflight[ack].message;
             && s.db.Has(m.eventId, Queued) && s.db.events[m.eventId].digests == None
             && m.eventId in s.ingested && m.identifiers == s.ingested[m.eventId].identifiers
    ensures var s := StateAfter(cfg, uploaders, run);
            var id, next := s.queue.inflight[ack].message.eventId, Do(cfg, s, ProcessDelivery(ack));
            && next.Some? && id in next.value.db.events
            && next.value.db == Db(s.db.events[id := next.value.db.events[id]], s.db.dead)
            && IsLeadDecided(cfg.lib, s.ingested[id], next.value.db.events[id])
  {
    var s := StateAfter(cfg, uploaders, run);
    LeadsShownInEveryRun(cfg, uploaders, run);
    var next := DeliveryDecides(cfg, s, ack);
  }

  lemma DeliveryDecides(cfg: Config, s: System, ack: nat) returns (next: System)
    requires LeadsShown(s) && ack in s.queue.inflight && ack !in s.committed
    requires var m := s.queue.inflight[ack].message;
             && s.db.Has(m.eventId, Queued) && s.db.events[m.eventId].digests == None
             && m.eventId in s.ingested && m.identifiers == s.ingested[m.eventId].identifiers
    ensures Do(cfg, s, ProcessDelivery(ack)) == Some(next)
    ensures var id := s.queue.inflight[ack].message.eventId;
            && id in next.db.events && next.db == Db(s.db.events[id := next.db.events[id]], s.db.dead)
            && IsLeadDecided(cfg.lib, s.ingested[id], next.db.events[id])
  {
    hide IsLeadDecided, ProcessOps, IsDecided, ShowsLead;
    var m := s.queue.inflight[ack].message;
    MessageIsHandled(cfg.lib, s.db, m, s.clock);
    var db := Run(s.db, ProcessOps(cfg.lib, s.db, m, s.clock)).value;
    next := AfterAction(cfg, s, ProcessDelivery(ack), db);
    LeadDecision(cfg.lib, s.ingested[m.eventId], s.db.events[m.eventId], s.clock, db.events[m.eventId]);
  }

  // --- A new lead, from the webhook to the decision ---

  lemma LeadArrives(cfg: Config, s: System, lead: LeadEvent) returns (next: System)
    requires lead.eventId !in s.db.events
    ensures Do(cfg, s, IngestLead(lead)) == Some(next)
    ensures next.queue == s.queue && next.committed == s.committed
    ensures lead.eventId in next.ingested && next.ingested[lead.eventId] == lead
    ensures next.db.Has(lead.eventId, Queued) && next.db.events[lead.eventId].digests == None
    ensures lead.eventId in next.publishing
    ensures next.publishing[lead.eventId].eventId == lead.eventId
    ensures next.publishing[lead.eventId].identifiers == lead.identifiers
  {
    SingleOp(s.db, InsertValidated(lead, s.clock));
    next := AfterAction(cfg, s, IngestLead(lead), Step(s.db, InsertValidated(lead, s.clock)).value);
  }

  lemma LeadIsPublished(cfg: Config, s: System, id: EventId) returns (next: System)
    requires id in s.publishing
    ensures Do(cfg, s, PublishLead(id)) == Some(next)
    ensures next == s.(queue := Publish(s.queue, s.publishing[id]), publishing := s.publishing - {id})
  {
    next := AfterAction(cfg, s, PublishLead(id), s.db);
  }

  /**
   * Any new lead, in any state of the system in which no message is waiting: once it was ingested, published,
   * received and handled, its row shows the decision on it.
   */
  lemma NewLeadIsDecided(cfg: Config, uploaders: nat, run: seq<Action>, lead: LeadEvent) returns (end: System)
    requires IsRun(cfg, uploaders, run)
    requires lead.eventId !in StateAfter(cfg, uploaders, run).db.events
    requires StateAfter(cfg, uploaders, run).queue.ready == []
    ensures var ack := StateAfter(cfg, uploaders, run).queue.nextAck;
            After(cfg, uploaders,
                  run + [IngestLead(lead)] + [PublishLead(lead.eventId)] + [Receive] + [ProcessDelivery(ack)])
            == Some(end)
    ensures lead.eventId in end.db.events && IsLeadDecided(cfg.lib, lead, end.db.events[lead.eventId])
  {
    hide Do, After, IsLeadDecided;
    var s := StateAfter(cfg, uploaders, run);
    assert After(cfg, uploaders, run) == Some(s);
    AcksFreshInEveryRun(cfg, uploaders, run);
    var r1 := run + [IngestLead(lead)];
    var arrived := LeadArrives(cfg, s, lead);
    RunReaches(cfg, uploaders, run, IngestLead(lead), s, arrived);
    var r2 := r1 + [PublishLead(lead.eventId)];
    var published := LeadIsPublished(cfg, arrived, lead.eventId);
    RunReaches(cfg, uploaders, r1, PublishLead(lead.eventId), arrived, published);
    var received := HandsOut(cfg, published);
    RunReaches(cfg, uploaders, r2, Receive, published, received);
    LeadsShownInEveryRun(cfg, uploaders, r2 + [Receive]);
    end := DeliveryDecides(cfg, received, s.queue.nextAck);
    RunReaches(cfg, uploaders, r2 + [Receive], ProcessDelivery(s.queue.nextAck), received, end);
  }
}

/** Repeated webhooks: the first delivery of an event id decides, and it is published at most once. */
module FirstDelivery {
  import opened Wrappers
  import opened Status
  import opened Model
  import opened Ledger
  import opened LedgerInvariants
  import opened Pipeline
  import opened AuditTrail
  import opened Provenance

  /** A webhook for this event id, valid or not. */
  predicate Delivers(a: Action, id: EventId) {
    (a.IngestLead? && a.lead.eventId == id) || (a.IngestInvalid? && a.id == id)
  }

  /** A later delivery of a known id changes nothing at all. */
  lemma RepeatChangesNothing(cfg: Config, s: System, a: Action, id: EventId)
    requires id in s.db.events && Delivers(a, id)
    ensures Do(cfg, s, a) == Some(s)
  {
    match a {
      case IngestLead(lead) => SingleOp(s.db, InsertValidated(lead, s.clock));
      case IngestInvalid(other, source, sourceEventId, errors) =>
        SingleOp(s.db, InsertRejected(other, source, sourceEventId, errors, s.clock));
    }
  }

  /** What the first delivery writes. */
  function FirstRow(a: Action, now: nat): Event
    requires a.IngestLead? || a.IngestInvalid?
  {
    match a
    case IngestLead(lead) => QueuedEvent(lead.FactsAt(now), now)
    case IngestInvalid(_, source, sourceEventId, errors) => RejectedEvent(source, sourceEventId, errors, now)
  }

  lemma FirstWrites(cfg: Config, s: System, a: Action, id: EventId)
    requires id !in s.db.events && Delivers(a, id)
    ensures Do(cfg, s, a).Some?
    ensures var next := Do(cfg, s, a).value;
            && next.db.events == s.db.events[id := FirstRow(a, s.clock)]
            && next.ingested == if a.IngestLead? then s.ingested[id := a.lead] else s.ingested
  {
    match a {
      case IngestLead(lead) => SingleOp(s.db, InsertValidated(lead, s.clock));
      case IngestInvalid(other, source, sourceEventId, errors) =>
        SingleOp(s.db, InsertRejected(other, source, sourceEventId, errors, s.clock));
    }
  }

  /** The identifiers an existing event arrived with are never replaced, nor added afterwards. */
  lemma IngestedStays(cfg: Config, s: System, a: Action, id: EventId)
    requires id in s.db.events && Do(cfg, s, a).Some?
    ensures var next := Do(cfg, s, a).value;
            (id in next.ingested <==> id in s.ingested) && (id in s.ingested ==> next.ingested[id] == s.ingested[id])
  {
    var db, raised := StepForm(cfg, s, a);
    if !raised {
      OnlyDbMatters(cfg, s, a, db);
    }
  }

  lemma {:induction false} IngestedStaysInRuns(cfg: Config, uploaders: nat, run: seq<Action>, k: nat, id: EventId)
    requires IsRun(cfg, uploaders, run) && k <= |run| && IsRun(cfg, uploaders, run[..k])
    requires id in StateAfter(cfg, uploaders, run[..k]).db.events
    ensures var early := StateAfter(cfg, uploaders, run[..k]).ingested;
            var late := StateAfter(cfg, uploaders, run).ingested;
            (id in late <==> id in early) && (id in early ==> late[id] == early[id])
    decreases |run|
  {
    if k == |run| {
      assert run[..k] == run;
    } else {
      RunSplits(cfg, uploaders, run);
      var before := run[..|run| - 1];
      assert before[..k] == run[..k];
      IngestedStaysInRuns(cfg, uploaders, before, k, id);
      PastNeverChanges(cfg, uploaders, before, k);
      assert id in StateAfter(cfg, uploaders, before).db.events;
      IngestedStays(cfg, StateAfter(cfg, uploaders, before), run[|run| - 1], id);
    }
  }

  /**
   * Whatever happens after the first delivery of an id, repeats included: the row keeps the columns and
   * the first log lines that delivery wrote, and the identifiers it came with, if it was a valid lead.
   */
  lemma FirstDeliveryWins(cfg: Config, uploaders: nat, run: seq<Action>, k: nat, id: EventId)
    requires IsRun(cfg, uploaders, run) && k < |run| && Delivers(run[k], id)
    requires IsRun(cfg, uploaders, run[..k]) && id !in StateAfter(cfg, uploaders, run[..k]).db.events
    ensures var end := StateAfter(cfg, uploaders, run);
            var first := FirstRow(run[k], StateAfter(cfg, uploaders, run[..k]).clock);
            && id in end.db.events && end.db.events[id].facts == first.facts && first.log <= end.db.events[id].log
            && (run[k].IngestLead? ==> id in end.ingested && end.ingested[id] == run[k].lead)
            && (run[k].IngestInvalid? ==> id !in end.ingested && end.db.events[id].log == first.log)
  {
    hide Do, After, IsExplained, IsFilled;
    var next := run[..k + 1];
    PastNeverChanges(cfg, uploaders, run, k + 1);
    assert next[..|next| - 1] == run[..k] && next[|next| - 1] == run[k];
    RunSplits(cfg, uploaders, next);
    var s := StateAfter(cfg, uploaders, run[..k]);
    FirstWrites(cfg, s, run[k], id);
    IngestedStaysInRuns(cfg, uploaders, run, k + 1, id);
    ProvenanceInEveryRun(cfg, uploaders, run[..k]);
    TablesSoundInEveryRun(cfg, uploaders, run);
    var e := StateAfter(cfg, uploaders, run).db.events[id];
    assert IsSound(e) && Continues(FirstRow(run[k], s.clock), e);
    if run[k].IngestInvalid? {
      RejectedIsFinal(FirstRow(run[k], s.clock), e);
    }
  }

  /** Nothing leaves REJECTED. */
  lemma RejectedIsFinal(first: Event, later: Event)
    requires IsSound(later) && first.log <= later.log && |first.log| == 2 && first.log[1].to == Rejected
    ensures later.log == first.log
  {
    assert later.log[1] == first.log[1];
    if |later.log| > 2 {
      LineIsLegal(later, 2);
    }
  }

  lemma LineIsLegal(e: Event, i: nat)
    requires IsSound(e) && 1 <= i < |e.log|
    ensures IsLegalEntry(e.log[i]) && e.log[i].from == Some(e.log[i - 1].to)
  {
  }

  // --- Publishing ---

  /** How often the run published the lead of this id, or lost it while publishing. */
  function Publishes(run: seq<Action>, id: EventId): nat {
    if run == [] then 0
    else
      var last := run[|run| - 1];
      Publishes(run[..|run| - 1], id) + if last == PublishLead(id) || last == LosePublish(id) then 1 else 0
  }

  function Bit(b: bool): nat {
    if b then 1 else 0
  }

  lemma PublishStep(cfg: Config, s: System, a: Action, id: EventId)
    requires IsProvenanced(cfg, s) && Do(cfg, s, a).Some?
    ensures var next := Do(cfg, s, a).value;
            Bit(a == PublishLead(id) || a == LosePublish(id)) + Bit(id in next.publishing) + Bit(id in s.ingested)
            == Bit(id in s.publishing) + Bit(id in next.ingested)
  {
    var db, raised := StepForm(cfg, s, a);
    if raised {
      assert a.Upload? || a.IngestLead? || a.IngestInvalid? || a.ProcessDelivery? || a.ReplayCommit?;
    } else {
      PublishEffect(cfg, s, a, db, id);
    }
  }

  lemma PublishEffect(cfg: Config, s: System, a: Action, db: Db, id: EventId)
    requires IsProvenanced(cfg, s) && IsEnabled(cfg, s, a)
    ensures var next := AfterAction(cfg, s, a, db);
            Bit(a == PublishLead(id) || a == LosePublish(id)) + Bit(id in next.publishing) + Bit(id in s.ingested)
            == Bit(id in s.publishing) + Bit(id in next.ingested)
  {
  }

  /**
   * In every run, an ingested lead was published once, lost once, or is still to be published, and only
   * one of these; an id that was not ingested as a lead is never published.
   */
  lemma {:induction false} PublishedAtMostOnce(cfg: Config, uploaders: nat, run: seq<Action>, id: EventId)
    requires IsRun(cfg, uploaders, run)
    ensures var s := StateAfter(cfg, uploaders, run);
            Publishes(run, id) + Bit(id in s.publishing) == Bit(id in s.ingested)
    decreases |run|
  {
    if run != [] {
      RunSplits(cfg, uploaders, run);
      var before := run[..|run| - 1];
      PublishedAtMostOnce(cfg, uploaders, before, id);
      ProvenanceInEveryRun(cfg, uploaders, before);
      PublishStep(cfg, StateAfter(cfg, uploaders, before), run[|run| - 1], id);
    }
  }
}

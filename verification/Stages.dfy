/** The other processes that share the ledger and the queue: ingest, worker and operator commands. */
module Stages {
  import opened Wrappers
  import opened Status
  import opened Consent
  import opened Identifiers
  import opened Model
  import opened Ledger
  import opened Processor
  import opened Decisions
  import opened Store
  import opened Queue
  import opened DeadLetters

  // --- Ingest ---

  datatype IngestResponse = Accepted | Duplicate(status: EventStatus)

  /** The message an accepted lead is published as. */
  function LeadMessage(lead: LeadEvent, now: nat): Message {
    Message(lead.eventId, lead.identifiers, now)
  }

  /** A valid webhook: the row is committed first, then the message is published, once per event id. */
  method Ingest(store: LedgerStore, queue: MemoryQueue, lead: LeadEvent, now: nat, publishFails: bool)
    returns (response: IngestResponse)
    modifies store`events, queue
    ensures Step(old(store.View()), InsertValidated(lead, now)) == Some(store.View())
    ensures response == if lead.eventId in old(store.events)
                        then Duplicate(old(store.events)[lead.eventId].status) else Accepted
    ensures queue.View() == if response.Accepted? && !publishFails
                            then Publish(old(queue.View()), LeadMessage(lead, now)) else old(queue.View())
    ensures response.Accepted? && !publishFails ==>
              && |queue.ready| == |old(queue.ready)| + 1 && old(queue.ready) <= queue.ready
              && var sent := queue.ready[|old(queue.ready)|];
                 && sent.message.eventId == lead.eventId && sent.message.identifiers == lead.identifiers
                 && sent.message.enqueuedAt == now && sent.attempt == 1
    ensures response.Duplicate? ==> store.events == old(store.events) && queue.ready == old(queue.ready)
  {
    var inserted := store.RecordValidated(lead, now);
    if !inserted {
      return Duplicate(store.events[lead.eventId].status);
    }
    if !publishFails {
      queue.PublishMessage(LeadMessage(lead, now));
    }
    response := Accepted;
  }

  // --- Worker ---

  /** The decision on one message, carried out on the tables. */
  method ProcessMessage(lib: Libraries, store: LedgerStore, message: Message,
                        now: nat) returns (outcome: ProcessOutcome)
    modifies store`events
    ensures Run(old(store.View()), ProcessOps(lib, old(store.View()), message, now)) == Some(store.View())
    ensures outcome == OutcomeOf(lib, old(store.View()), message)
    ensures old(store.View().Has(message.eventId, Queued)) ==>
              && message.eventId in store.events
              && store.events == old(store.events)[message.eventId := store.events[message.eventId]]
              && IsDecided(lib, old(store.events)[message.eventId], message.identifiers, now,
                           store.events[message.eventId])
              && outcome == match store.events[message.eventId].status
                            case Suppressed => NowSuppressed case Rejected => NowRejected case _ => NowProcessed
    ensures !old(store.View().Has(message.eventId, Queued)) ==> store.events == old(store.events)
  {
    ProcessingMoves(lib, store.View(), message, now);
    if store.View().Has(message.eventId, Queued) {
      MessageIsHandled(lib, store.View(), message, now);
    }
    var id := message.eventId;
    if id !in store.events {
      return SkippedUnknownEvent;
    }
    var e := store.events[id];
    if e.status != Queued {
      return SkippedNotQueued;
    }
    var blocked := EvaluateConsent(e.facts.consent);
    if blocked.Some? {
      var suppressed := store.MoveTo(id, Suppressed, Some(ConsentBlocked(blocked.value)), now);
      return NowSuppressed;
    }
    if message.identifiers == NO_IDENTIFIERS && e.digests.Some? {
      var reused := store.RecordProcessed(id, e.digests.value, now);
      return NowProcessed;
    }
    var result := BuildUserIdentifiers(lib, message.identifiers);
    var rejections := Counting(result.rejections, e.facts.HasClickId());
    if rejections != [] {
      var rejected := store.MoveTo(id, Rejected, Some(FieldErrors(rejections)), now);
      return NowRejected;
    }
    var processed := store.RecordProcessed(id, result.identifiers, now);
    outcome := NowProcessed;
  }

  /** Commit, then ack. An exception, up to the commit, undoes the work and gives the message back. */
  method HandleDelivery(lib: Libraries, store: LedgerStore, queue: MemoryQueue, delivery: Delivery, now: nat,
                        raises: bool)
    returns (outcome: Option<ProcessOutcome>)
    modifies store, queue
    ensures raises ==> outcome == None && store.View() == old(store.View())
                       && queue.View() == Nack(old(queue.View()), delivery.ackId)
    ensures !raises ==>
              && Run(old(store.View()), ProcessOps(lib, old(store.View()), delivery.message, now)) == Some(store.View())
              && outcome == Some(OutcomeOf(lib, old(store.View()), delivery.message))
              && queue.View() == Ack(old(queue.View()), delivery.ackId)
  {
    var before := store.View();
    var done := ProcessMessage(lib, store, delivery.message, now);
    if raises {
      store.Rollback(before);
      queue.NackDelivery(delivery);
      return None;
    }
    queue.AckDelivery(delivery);
    outcome := Some(done);
  }

  // --- Reconcile ---

  /** The identifier-free message for an event that can be completed from its row. */
  function RepublishOne(events: map<EventId, Event>, id: EventId, now: nat): seq<Message> {
    if id in events && IsRecoverable(events[id]) then [Message(id, NO_IDENTIFIERS, now)] else []
  }

  /** One such message for each listed event that can be completed. */
  function RepublishMessages(events: map<EventId, Event>, ids: seq<EventId>, now: nat): seq<Message> {
    if ids == [] then []
    else
      var last := |ids| - 1;
      RepublishMessages(events, ids[..last], now) + RepublishOne(events, ids[last], now)
  }

  lemma RepublishNext(events: map<EventId, Event>, ids: seq<EventId>, i: nat, now: nat)
    requires i < |ids|
    ensures RepublishMessages(events, ids[..i + 1], now)
            == RepublishMessages(events, ids[..i], now) + RepublishOne(events, ids[i], now)
  {
    assert ids[..i + 1][..i] == ids[..i];
  }

  /** One empty message for each listed event that can be completed, in list order, and for no other. */
  ghost predicate AreRepublished(events: map<EventId, Event>, ids: seq<EventId>, now: nat, sent: seq<Message>) {
    && (forall m :: m in sent ==>
          && m == Message(m.eventId, NO_IDENTIFIERS, now) && m.eventId in ids && m.eventId in events
          && (events[m.eventId].facts.matchKeyType == Some(ClickId) || events[m.eventId].digests.Some?))
    && (forall id :: id in ids && id in events
                     && (events[id].facts.matchKeyType == Some(ClickId) || events[id].digests.Some?)
                     ==> Message(id, NO_IDENTIFIERS, now) in sent)
    && (forall i, j :: 0 <= i < j < |sent| ==> ComesBefore(ids, sent[i].eventId, sent[j].eventId))
  }

  predicate ComesBefore(ids: seq<EventId>, a: EventId, b: EventId) {
    exists p, q :: 0 <= p < q < |ids| && ids[p] == a && ids[q] == b
  }

  lemma {:induction false} RepublishedAre(events: map<EventId, Event>, ids: seq<EventId>, now: nat)
    ensures AreRepublished(events, ids, now, RepublishMessages(events, ids, now))
  {
    if ids != [] {
      var last := |ids| - 1;
      var before, id := ids[..last], ids[last];
      RepublishedAre(events, before, now);
      assert ids == before + [id];
      var sent, all := RepublishMessages(events, before, now), RepublishMessages(events, ids, now);
      forall i, j | 0 <= i < j < |all| ensures ComesBefore(ids, all[i].eventId, all[j].eventId) {
        assert all[i] == sent[i] && sent[i] in sent;
        if j < |sent| {
          assert ComesBefore(before, sent[i].eventId, sent[j].eventId);
          var p, q :| 0 <= p < q < |before| && before[p] == sent[i].eventId && before[q] == sent[j].eventId;
          assert ids[p] == before[p] && ids[q] == before[q];
        } else {
          var p :| 0 <= p < |before| && before[p] == sent[i].eventId;
          assert ids[p] == before[p] && ids[last] == all[j].eventId;
        }
      }
    }
  }

  function FreshEnvelopes(messages: seq<Message>): (e: seq<Envelope>)
    ensures |e| == |messages| && forall i :: 0 <= i < |e| ==> e[i] == Envelope(messages[i], 1)
  {
    seq(|messages|, i requires 0 <= i < |messages| => Envelope(messages[i], 1))
  }

  /** The stuck events are exactly the queued ones received before the threshold; the recoverable ones move. */
  method Reconcile(store: LedgerStore, queue: MemoryQueue, olderThanSeconds: nat, republish: bool, now: nat)
    returns (stuck: seq<EventId>, republished: nat)
    modifies queue
    ensures IsStuckList(store.events, now - olderThanSeconds, stuck)
    ensures var messages := if republish then RepublishMessages(store.events, stuck, now) else [];
            queue.ready == old(queue.ready) + FreshEnvelopes(messages) && republished == |messages|
    ensures forall id :: id in stuck
              <==> store.View().Has(id, Queued) && store.events[id].facts.receivedAt + olderThanSeconds < now
    ensures |queue.ready| == |old(queue.ready)| + republished && old(queue.ready) <= queue.ready
    ensures forall i :: |old(queue.ready)| <= i < |queue.ready| ==> queue.ready[i].attempt == 1
    ensures if republish then AreRepublished(store.events, stuck, now, Messages(queue.ready[|old(queue.ready)|..]))
            else republished == 0
    ensures queue.inflight == old(queue.inflight) && queue.nextAck == old(queue.nextAck)
  {
    stuck := store.FindStuckQueued(now - olderThanSeconds);
    republished := 0;
    RepublishedAre(store.events, stuck, now);
    ghost var line, messages := queue.ready, RepublishMessages(store.events, stuck, now);
    assert Messages((line + FreshEnvelopes(messages))[|line|..]) == messages;
    if republish {
      republished := RepublishAll(store, queue, stuck, now);
    }
  }

  method RepublishAll(store: LedgerStore, queue: MemoryQueue, stuck: seq<EventId>, now: nat) returns (republished: nat)
    requires forall i :: 0 <= i < |stuck| ==> stuck[i] in store.events
    modifies queue
    ensures var messages := RepublishMessages(store.events, stuck, now);
            queue.ready == old(queue.ready) + FreshEnvelopes(messages) && republished == |messages|
    ensures queue.inflight == old(queue.inflight) && queue.nextAck == old(queue.nextAck)
  {
    republished := 0;
    ghost var messages: seq<Message> := [];
    for i := 0 to |stuck|
      invariant messages == RepublishMessages(store.events, stuck[..i], now)
      invariant queue.ready == old(queue.ready) + FreshEnvelopes(messages) && republished == |messages|
      invariant queue.inflight == old(queue.inflight) && queue.nextAck == old(queue.nextAck)
    {
      RepublishNext(store.events, stuck, i, now);
      if IsRecoverable(store.events[stuck[i]]) {
        queue.PublishMessage(Message(stuck[i], NO_IDENTIFIERS, now));
        EnvelopesAppend(old(queue.ready), messages, [Message(stuck[i], NO_IDENTIFIERS, now)]);
        messages := messages + [Message(stuck[i], NO_IDENTIFIERS, now)];
        republished := republished + 1;
      }
    }
    assert stuck[..|stuck|] == stuck;
  }

  // --- Replay ---

  /** Replay one record by id, or the selection of a filter, record by record. */
  method DlqReplay(store: LedgerStore, queue: MemoryQueue, filter: DlqFilter, dlqId: Option<nat>, now: nat)
    returns (replayed: nat, candidates: seq<nat>)
    modifies store, queue
    ensures match dlqId
            case Some(id) => candidates == if id < |old(store.dead)| then [id] else []
            case None => IsOrdered(Selected(old(store.dead), filter), NewestFirst(old(store.dead)), REPLAY_LIMIT,
                                   candidates)
    ensures dlqId.None? ==>
              && |candidates| <= 1000
              && (forall i :: 0 <= i < |candidates| ==>
                    candidates[i] < |old(store.dead)| && filter.Selects(old(store.dead)[candidates[i]]))
              && (forall i, j :: 0 <= i < j < |candidates| ==>
                    candidates[i] != candidates[j]
                    && old(store.dead)[candidates[i]].deadLetteredAt >= old(store.dead)[candidates[j]].deadLetteredAt)
              && (forall r :: 0 <= r < |old(store.dead)| && filter.Selects(old(store.dead)[r]) && r !in candidates ==>
                    |candidates| == 1000)
    ensures Run(old(store.View()), ReplayOps(candidates, now)) == Some(store.View())
    ensures replayed == |ReplayMessages(old(store.View()), candidates, now)|
    ensures queue.ready == old(queue.ready) + FreshEnvelopes(ReplayMessages(old(store.View()), candidates, now))
    ensures queue.inflight == old(queue.inflight) && queue.nextAck == old(queue.nextAck)
  {
    match dlqId {
      case Some(id) => candidates := if id < |store.dead| then [id] else [];
      case None => candidates := store.ListDeadLetters(filter, REPLAY_LIMIT);
    }
    assert forall i :: 0 <= i < |candidates| ==> candidates[i] in candidates && candidates[i] < |store.dead|;
    replayed := ReplayCandidates(store, queue, candidates, now);
  }

  /** With `sent` published so far, replaying `rest` from here ends where replaying `all` from the start does. */
  ghost predicate IsMidReplay(start: Db, all: seq<nat>, current: Db, rest: seq<nat>, sent: seq<Message>, now: nat) {
    && Run(current, ReplayOps(rest, now)) == Run(start, ReplayOps(all, now))
    && sent + ReplayMessages(current, rest, now) == ReplayMessages(start, all, now)
  }

  /** What one replay adds to the messages. */
  function ReplaySends(db: Db, record: nat, now: nat): seq<Message>
    requires record < |db.dead|
  {
    if CanReplay(db, record) then [ReplayMessage(db, record, now)] else []
  }

  lemma MidReplayNext(start: Db, all: seq<nat>, current: Db, rest: seq<nat>, sent: seq<Message>, now: nat, next: Db)
    requires IsMidReplay(start, all, current, rest, sent, now) && rest != [] && rest[0] < |current.dead|
    requires Step(current, Replay(rest[0], now)) == Some(next)
    ensures IsMidReplay(start, all, next, rest[1..], sent + ReplaySends(current, rest[0], now), now)
  {
    assert ReplayOps(rest, now)[1..] == ReplayOps(rest[1..], now);
    var more := ReplaySends(current, rest[0], now);
    assert ReplayMessages(current, rest, now) == more + ReplayMessages(next, rest[1..], now);
    assert sent + (more + ReplayMessages(next, rest[1..], now)) == (sent + more) + ReplayMessages(next, rest[1..], now);
  }

  method ReplayCandidates(store: LedgerStore, queue: MemoryQueue, candidates: seq<nat>,
                          now: nat) returns (replayed: nat)
    requires forall i :: 0 <= i < |candidates| ==> candidates[i] < |store.dead|
    modifies store, queue
    ensures Run(old(store.View()), ReplayOps(candidates, now)) == Some(store.View())
    ensures replayed == |ReplayMessages(old(store.View()), candidates, now)|
    ensures queue.ready == old(queue.ready) + FreshEnvelopes(ReplayMessages(old(store.View()), candidates, now))
    ensures queue.inflight == old(queue.inflight) && queue.nextAck == old(queue.nextAck)
  {
    replayed := 0;
    ghost var start, sent: seq<Message> := store.View(), [];
    for i := 0 to |candidates|
      invariant |store.dead| == |start.dead|
      invariant IsMidReplay(start, candidates, store.View(), candidates[i..], sent, now)
      invariant queue.ready == old(queue.ready) + FreshEnvelopes(sent) && replayed == |sent|
      invariant queue.inflight == old(queue.inflight) && queue.nextAck == old(queue.nextAck)
    {
      var done;
      done, sent := ReplayNext(store, queue, candidates, i, now, start, old(queue.ready), sent);
      if done {
        replayed := replayed + 1;
      }
    }
  }

  /** One candidate of the loop, in its own transaction. */
  method ReplayNext(store: LedgerStore, queue: MemoryQueue, candidates: seq<nat>, i: nat, now: nat, ghost start: Db,
                    ghost line: seq<Envelope>, ghost sent: seq<Message>)
    returns (done: bool, ghost sentAfter: seq<Message>)
    requires i < |candidates| && candidates[i] < |store.dead|
    requires IsMidReplay(start, candidates, store.View(), candidates[i..], sent, now)
    requires queue.ready == line + FreshEnvelopes(sent)
    modifies store, queue
    ensures |store.dead| == |old(store.dead)|
    ensures IsMidReplay(start, candidates, store.View(), candidates[i + 1..], sentAfter, now)
    ensures queue.ready == line + FreshEnvelopes(sentAfter) && |sentAfter| == |sent| + if done then 1 else 0
    ensures queue.inflight == old(queue.inflight) && queue.nextAck == old(queue.nextAck)
  {
    assert candidates[i..][0] == candidates[i] && candidates[i..][1..] == candidates[i + 1..];
    ghost var before := store.View();
    done := ReplayOne(store, queue, candidates[i], now);
    sentAfter := sent + ReplaySends(before, candidates[i], now);
    MidReplayNext(start, candidates, before, candidates[i..], sent, now, store.View());
    EnvelopesAppend(line, sent, ReplaySends(before, candidates[i], now));
  }

  lemma EnvelopesAppend(line: seq<Envelope>, sent: seq<Message>, more: seq<Message>)
    ensures line + FreshEnvelopes(sent) + FreshEnvelopes(more) == line + FreshEnvelopes(sent + more)
  {
  }

  /** One replay transaction: the row and the record, then the message. */
  method ReplayOne(store: LedgerStore, queue: MemoryQueue, record: nat, now: nat) returns (done: bool)
    requires record < |store.dead|
    modifies store, queue
    ensures Step(old(store.View()), Replay(record, now)) == Some(store.View())
    ensures |store.dead| == |old(store.dead)|
    ensures done <==> CanReplay(old(store.View()), record)
    ensures queue.ready == old(queue.ready) + FreshEnvelopes(ReplaySends(old(store.View()), record, now))
    ensures queue.ready
            == old(queue.ready)
               + if done then [Envelope(Message(old(store.dead)[record].eventId, NO_IDENTIFIERS, now), 1)] else []
    ensures queue.inflight == old(queue.inflight) && queue.nextAck == old(queue.nextAck)
  {
    done := store.ReplayRecord(record, now);
    if done {
      queue.PublishMessage(Message(store.dead[record].eventId, NO_IDENTIFIERS, now));
    }
  }
}

/** The ledger tables as objects that are updated in place, call by call. */
module Store {
  import opened Wrappers
  import opened Status
  import opened Consent
  import opened Model
  import opened Ledger
  import opened Transactions

  /** Which dead-letter records a listing selects; the reason test stands for the prefix match. */
  datatype DlqFilter = DlqFilter(
    eventId: Option<EventId>, source: Option<Source>, failureClass: Option<FailureClass>,
    reasonMatches: Reason -> bool, since: Option<nat>, until: Option<nat>, includeReplayed: bool)
  {
    predicate Selects(row: DeadLetter) {
      && (includeReplayed || row.Open())
      && (eventId.Some? && eventId.value != "" ==> row.eventId == eventId.value)
      && (source.Some? ==> row.source == source.value)
      && (failureClass.Some? ==> row.failureClass == failureClass.value)
      && reasonMatches(row.reason)
      && (since.Some? ==> row.deadLetteredAt >= since.value)
      && (until.Some? ==> row.deadLetteredAt < until.value)
    }
  }

  /** Open records per source: the grouped count behind the depth gauge. */
  function OpenDepth(dead: seq<DeadLetter>, source: Source): nat {
    if dead == [] then 0
    else
      var last := |dead| - 1;
      OpenDepth(dead[..last], source) + if dead[last].Open() && dead[last].source == source then 1 else 0
  }

  /** The first `limit` candidates in ascending key order: ORDER BY ... LIMIT. */
  ghost predicate IsOrdered<T(!new)>(candidates: set<T>, key: T -> int, limit: nat, xs: seq<T>) {
    && |xs| <= limit && (forall x :: x in xs ==> x in candidates)
    && (forall i, j :: 0 <= i < j < |xs| ==> xs[i] != xs[j] && key(xs[i]) <= key(xs[j]))
    && (forall c :: c in candidates && c !in xs ==>
          |xs| == limit && forall i :: 0 <= i < |xs| ==> key(xs[i]) <= key(c))
  }

  lemma {:induction false} LeastExists<T>(candidates: set<T>, key: T -> int)
    requires candidates != {}
    ensures exists x :: x in candidates && forall y :: y in candidates ==> key(x) <= key(y)
  {
    var c :| c in candidates;
    if candidates == {c} {
      assert forall y :: y in candidates ==> key(c) <= key(y);
    } else {
      LeastExists(candidates - {c}, key);
      var x :| x in candidates - {c} && forall y :: y in candidates - {c} ==> key(x) <= key(y);
      var least := if key(c) <= key(x) then c else x;
      forall y | y in candidates ensures key(least) <= key(y) {
        assert y == c || y in candidates - {c};
      }
      assert least in candidates;
    }
  }

  method Ordered<T(==, !new)>(candidates: set<T>, key: T -> int, limit: nat) returns (xs: seq<T>)
    ensures IsOrdered(candidates, key, limit, xs)
  {
    xs := [];
    var rest := candidates;
    while |xs| < limit && rest != {}
      invariant |xs| <= limit
      invariant forall c :: c in rest <==> c in candidates && c !in xs
      invariant forall x :: x in xs ==> x in candidates
      invariant forall i, j :: 0 <= i < j < |xs| ==> xs[i] != xs[j] && key(xs[i]) <= key(xs[j])
      invariant forall i, c :: 0 <= i < |xs| && c in rest ==> key(xs[i]) <= key(c)
      decreases rest
    {
      LeastExists(rest, key);
      var least :| least in rest && forall y :: y in rest ==> key(least) <= key(y);
      xs := xs + [least];
      rest := rest - {least};
    }
  }

  class LedgerStore {
    var events: map<EventId, Event>
    var dead: seq<DeadLetter>

    constructor ()
      ensures View() == Db(map[], [])
    {
      events := map[];
      dead := [];
    }

    function View(): Db
      reads this
    {
      Db(events, dead)
    }

    /** The tables as a transaction found them, put back because it raised. */
    method Rollback(before: Db)
      modifies this
      ensures View() == before
    {
      events := before.events;
      dead := before.dead;
    }

    /** Move an event along the table; false is the IllegalTransition exception. */
    method MoveTo(id: EventId, to: EventStatus, reason: Option<Reason>, now: nat) returns (ok: bool)
      requires id in events
      modifies this`events
      ensures ok <==> to in Allowed(old(events[id].status))
      ensures ok ==> events == old(events)[id := Transition(old(events[id]), to, reason, now).value]
      ensures ok ==> events[id] == old(events[id]).(
                       status := to, statusReason := reason,
                       log := old(events[id].log) + [LogEntry(Some(old(events[id].status)), to, reason, now)])
      ensures !ok ==> events == old(events)
    {
      var e := events[id];
      ok := to in Allowed(e.status);
      if ok {
        e := e.(status := to, statusReason := reason);
        e := e.(log := e.log + [LogEntry(Some(events[id].status), to, reason, now)]);
        events := events[id := e];
      }
    }

    /** Insert the row if the id is new, and take it to QUEUED in the same breath. */
    method RecordValidated(lead: LeadEvent, now: nat) returns (inserted: bool)
      modifies this`events
      ensures Step(old(View()), InsertValidated(lead, now)) == Some(View())
      ensures inserted <==> lead.eventId !in old(events)
      ensures inserted ==> events == old(events)[lead.eventId := events[lead.eventId]]
      ensures inserted ==>
                var e := events[lead.eventId];
                && e.facts.source == lead.source && e.facts.sourceEventId == lead.sourceEventId
                && e.facts.receivedAt == now && e.facts.conversion == Some(lead.conversion)
                && e.facts.clickId == lead.clickId && e.facts.consent == lead.consent
                && (e.facts.matchKeyType == Some(ClickId) <==> lead.clickId.Some? && lead.clickId.value != "")
                && e.facts.matchKeyType.Some? && e.digests == None && e.statusReason == None
                && e.status == Queued && e.attemptCount == 0 && e.lastAttemptAt == None
                && e.log == [LogEntry(None, Received, None, now), LogEntry(Some(Received), Validated, None, now),
                             LogEntry(Some(Validated), Queued, None, now)]
    {
      var id := lead.eventId;
      inserted := id !in events;
      if inserted {
        events := events[id := Created(lead.FactsAt(now), now)];
        var validated := MoveTo(id, Validated, None, now);
        var queued := MoveTo(id, Queued, None, now);
        assert events == old(events)[id := events[id]];
      }
    }

    method RecordRejected(id: EventId, source: Source, sourceEventId: string, errors: string, now: nat)
      returns (inserted: bool)
      modifies this`events
      ensures Step(old(View()), InsertRejected(id, source, sourceEventId, errors, now)) == Some(View())
      ensures inserted <==> id !in old(events)
      ensures inserted ==> events == old(events)[id := events[id]]
      ensures inserted ==>
                var e := events[id];
                && e.facts == Facts(source, sourceEventId, now, None, None, None, ConsentSignals(None, None))
                && e.digests == None && e.status == Rejected && e.statusReason == Some(SchemaErrors(errors))
                && e.attemptCount == 0 && e.lastAttemptAt == None
                && e.log == [LogEntry(None, Received, None, now),
                             LogEntry(Some(Received), Rejected, Some(SchemaErrors(errors)), now)]
    {
      inserted := id !in events;
      if inserted {
        events := events[id := Created(BareFacts(source, sourceEventId, now), now)];
        var rejected := MoveTo(id, Rejected, Some(SchemaErrors(errors)), now);
        assert events == old(events)[id := events[id]];
      }
    }

    /** Digests written and the event PROCESSED; false when the move is illegal, which rolls back. */
    method RecordProcessed(id: EventId, digests: Identifiers.HashedIdentifiers, now: nat) returns (ok: bool)
      requires id in events
      modifies this`events
      ensures ok <==> Step(old(View()), Update(id, Process(digests), now)).Some?
      ensures ok ==> Step(old(View()), Update(id, Process(digests), now)) == Some(View())
      ensures ok <==> old(events[id].status) == Queued
      ensures ok ==> events == old(events)[id := old(events[id]).(
                       digests := Some(digests), status := Processed, statusReason := None,
                       log := old(events[id].log) + [LogEntry(Some(Queued), Processed, None, now)])]
    {
      events := events[id := events[id].(digests := Some(digests))];
      ok := MoveTo(id, Processed, None, now);
      assert ok ==> events == old(events)[id := events[id]];
    }

    method CountAttempt(id: EventId, now: nat)
      requires id in events
      modifies this`events
      ensures events == old(events)[id := Attempted(old(events[id]), now)]
    {
      var e := events[id];
      events := events[id := e.(attemptCount := e.attemptCount + 1, lastAttemptAt := Some(now))];
    }

    /** One row of the claim loop. */
    method ClaimRow(id: EventId, now: nat) returns (ok: bool)
      requires id in events
      modifies this`events
      ensures ok <==> Step(old(View()), Update(id, Claim, now)).Some?
      ensures ok ==> Step(old(View()), Update(id, Claim, now)) == Some(View())
      ensures ok <==> old(events[id].status) in {Processed, FailedRetryable, Uploading}
      ensures ok ==> events == old(events)[id := old(events[id]).(
                       status := Uploading, attemptCount := old(events[id].attemptCount) + 1,
                       lastAttemptAt := Some(now),
                       statusReason := if old(events[id].status) == Uploading then old(events[id].statusReason)
                                       else None,
                       log := old(events[id].log)
                              + [LogEntry(Some(old(events[id].status)), Uploading,
                                          if old(events[id].status) == Uploading then Some(ReclaimedStale) else None,
                                          now)])]
    {
      var e := events[id];
      if e.status != Uploading {
        ok := MoveTo(id, Uploading, None, now);
      } else {
        ok := true;
        events := events[id := e.(log := e.log + [LogEntry(Some(e.status), e.status, Some(ReclaimedStale), now)])];
      }
      if ok {
        CountAttempt(id, now);
        assert events == old(events)[id := events[id]];
      }
    }

    /** Between two attempts of one batch: failed, uploading again, one more attempt. */
    method RecordRetryAttempt(id: EventId, cause: string, now: nat) returns (ok: bool)
      requires id in events
      modifies this`events
      ensures ok <==> Step(old(View()), Update(id, RecordRetry(cause), now)).Some?
      ensures ok ==> Step(old(View()), Update(id, RecordRetry(cause), now)) == Some(View())
      ensures ok <==> old(events[id].status) == Uploading
      ensures ok ==> events == old(events)[id := old(events[id]).(
                       statusReason := None, attemptCount := old(events[id].attemptCount) + 1,
                       lastAttemptAt := Some(now),
                       log := old(events[id].log)
                              + [LogEntry(Some(Uploading), FailedRetryable, Some(TransientRequest(cause)), now),
                                 LogEntry(Some(FailedRetryable), Uploading, None, now)])]
    {
      ghost var log := events[id].log;
      ok := MoveTo(id, FailedRetryable, Some(TransientRequest(cause)), now);
      if ok {
        ok := MoveTo(id, Uploading, None, now);
        CountAttempt(id, now);
        assert events == old(events)[id := events[id]];
        assert events[id].log
               == log + [LogEntry(Some(Uploading), FailedRetryable, Some(TransientRequest(cause)), now),
                         LogEntry(Some(FailedRetryable), Uploading, None, now)];
      }
    }

    /** The only way an event becomes DEAD_LETTERED: the move and the record together. */
    method DeadLetterEvent(id: EventId, failureClass: FailureClass, reason: Reason, code: Option<string>,
                           payload: ConversionRow, now: nat) returns (ok: bool)
      requires id in events
      modifies this
      ensures ok <==> Step(old(View()), Update(id, DeadLetterRow(failureClass, reason, code, payload), now)).Some?
      ensures ok
        ==> Step(old(View()), Update(id, DeadLetterRow(failureClass, reason, code, payload), now)) == Some(View())
      ensures ok <==> old(events[id].status) in {Uploading, FailedRetryable}
      ensures ok ==> events == old(events)[id := old(events[id]).(
                       status := DeadLettered, statusReason := Some(reason),
                       log := old(events[id].log)
                              + [LogEntry(Some(old(events[id].status)), DeadLettered, Some(reason), now)])]
      ensures ok ==> |dead| == |old(dead)| + 1 && dead[..|old(dead)|] == old(dead)
      ensures ok ==>
                var row := dead[|old(dead)|];
                && row.eventId == id && row.source == events[id].facts.source
                && (row.conversionAction.Some? <==> events[id].facts.conversion.Some?)
                && (row.conversionAction.Some? ==>
                      row.conversionAction.value == events[id].facts.conversion.value.action)
                && row.deadLetteredAt == now && row.failureClass == failureClass && row.reason == reason
                && row.errorCode == code && row.payload == payload && row.history == History(events[id].log)
                && row.replayedAt == None && row.replayCount == 0
    {
      ok := MoveTo(id, DeadLettered, Some(reason), now);
      if ok {
        var e := events[id];
        dead := dead + [DeadLetter(id, e.facts.source,
                                   match e.facts.conversion case Some(c) => Some(c.action) case None => None,
                                   now, failureClass, reason, code, payload, History(e.log), None, 0)];
      }
    }

    /** Send one dead-lettered event back: the row QUEUED with a fresh budget, the record marked. */
    method ReplayRecord(record: nat, now: nat) returns (replayed: bool)
      requires record < |dead|
      modifies this
      ensures Step(old(View()), Op.Replay(record, now)) == Some(View())
      ensures replayed <==> CanReplay(old(View()), record)
      ensures replayed <==> var id := old(dead)[record].eventId;
                            old(dead)[record].replayedAt.None? && id in old(events)
                            && old(events)[id].status == DeadLettered
      ensures !replayed ==> View() == old(View())
      ensures replayed ==>
                var id := old(dead)[record].eventId;
                && events == old(events)[id := old(events)[id].(
                     status := Queued, statusReason := Some(ReplayedFrom(record)), attemptCount := 0,
                     lastAttemptAt := None,
                     log := old(events)[id].log
                            + [LogEntry(Some(DeadLettered), Queued, Some(ReplayedFrom(record)), now)])]
                && dead == old(dead)[record := old(dead)[record].(
                     replayedAt := Some(now), replayCount := old(dead)[record].replayCount + 1)]
    {
      var row := dead[record];
      if row.replayedAt.Some? {
        return false;
      }
      if row.eventId !in events || events[row.eventId].status != DeadLettered {
        return false;
      }
      replayed := MoveTo(row.eventId, Queued, Some(ReplayedFrom(record)), now);
      events := events[row.eventId := events[row.eventId].(attemptCount := 0, lastAttemptAt := None)];
      dead := dead[record := row.(replayedAt := Some(now), replayCount := row.replayCount + 1)];
      assert events == old(events)[row.eventId := events[row.eventId]];
    }

    /** The claim query. */
    method SelectForUpload(now: nat, limit: nat, retryAfter: nat, staleAfter: nat, locked: set<EventId>)
      returns (ids: seq<EventId>)
      ensures IsSelection(events, now, limit, retryAfter, staleAfter, locked, ids)
    {
      var rows := events;
      var candidates := set id | id in rows && Claimable(rows, id, now, retryAfter, staleAfter, locked);
      ids := Ordered(candidates, ReceiptOrder(rows), limit);
      assert forall i :: 0 <= i < |ids| ==> ids[i] in candidates;
    }

    /** The claim query and the loop over its rows. */
    method ClaimForUpload(now: nat, limit: nat, retryAfter: nat, staleAfter: nat, locked: set<EventId>)
      returns (claimed: seq<EventId>)
      modifies this`events
      ensures IsSelection(old(events), now, limit, retryAfter, staleAfter, locked, claimed)
      ensures Run(old(View()), ClaimOps(claimed, now)) == Some(View())
    {
      claimed := SelectForUpload(now, limit, retryAfter, staleAfter, locked);
      SelectionIsLegal(View(), now, limit, retryAfter, staleAfter, locked, claimed);
      ClaimAll(claimed, now);
    }

    method ClaimAll(ids: seq<EventId>, now: nat)
      requires Run(View(), ClaimOps(ids, now)).Some?
      modifies this`events
      ensures Run(old(View()), ClaimOps(ids, now)) == Some(View())
    {
      ghost var ops := ClaimOps(ids, now);
      ghost var start := View();
      for i := 0 to |ids|
        invariant Run(View(), ops[i..]) == Run(start, ops)
      {
        assert ops[i..][1..] == ops[i + 1..];
        var ok := ClaimRow(ids[i], now);
      }
    }

    /** The stuck-event query. */
    method FindStuckQueued(olderThan: int) returns (ids: seq<EventId>)
      ensures IsStuckList(events, olderThan, ids)
      ensures forall id :: id in ids
                <==> id in events && events[id].status == Queued && events[id].facts.receivedAt < olderThan
      ensures forall i, j :: 0 <= i < j < |ids| ==>
                ids[i] != ids[j] && events[ids[i]].facts.receivedAt <= events[ids[j]].facts.receivedAt
    {
      var rows := events;
      var stuck := set id | id in rows && rows[id].status == Queued && rows[id].facts.receivedAt < olderThan;
      ids := Ordered(stuck, ReceiptOrder(rows), |stuck|);
      OrderedIsAll(stuck, ReceiptOrder(rows), ids);
    }

    /** The dead-letter records a filter selects, newest first. */
    method ListDeadLetters(filter: DlqFilter, limit: nat) returns (records: seq<nat>)
      ensures IsOrdered(Selected(dead, filter), NewestFirst(dead), limit, records)
      ensures |records| <= limit
      ensures forall i :: 0 <= i < |records| ==> records[i] < |dead| && filter.Selects(dead[records[i]])
      ensures forall i, j :: 0 <= i < j < |records| ==>
                records[i] != records[j] && dead[records[i]].deadLetteredAt >= dead[records[j]].deadLetteredAt
      ensures forall r :: 0 <= r < |dead| && filter.Selects(dead[r]) && r !in records ==>
                |records| == limit
                && forall i :: 0 <= i < |records| ==> dead[records[i]].deadLetteredAt >= dead[r].deadLetteredAt
    {
      records := Ordered(Selected(dead, filter), NewestFirst(dead), limit);
      assert forall i :: 0 <= i < |records| ==> records[i] in Selected(dead, filter);
    }
  }

  /** Every criterion counts: a filter made of one record's columns selects the records that share all of them. */
  lemma OwnColumnsSelect(row: DeadLetter, other: DeadLetter, includeReplayed: bool)
    requires row.eventId != ""
    ensures var t := row.deadLetteredAt;
            DlqFilter(Some(row.eventId), Some(row.source), Some(row.failureClass), (r: Reason) => r == row.reason,
                      Some(t), Some(t + 1), includeReplayed).Selects(other)
            <==> other.eventId == row.eventId && other.source == row.source && other.failureClass == row.failureClass
                 && other.reason == row.reason && other.deadLetteredAt == t
                 && (other.replayedAt.Some? ==> includeReplayed)
  {
  }

  /** Two adjoining windows select together what the joint window does, and no record twice. */
  lemma WindowsSplit(filter: DlqFilter, row: DeadLetter, first: nat, middle: nat, last: nat)
    requires first <= middle <= last
    ensures var early := filter.(since := Some(first), until := Some(middle)).Selects(row);
            var late := filter.(since := Some(middle), until := Some(last)).Selects(row);
            && !(early && late)
            && (filter.(since := Some(first), until := Some(last)).Selects(row) <==> early || late)
  {
  }

  /** An open record is selected when no criterion is given, and a missing or empty event id is none. */
  lemma NoCriterionSelectsOpen(row: DeadLetter, eventId: Option<EventId>, includeReplayed: bool)
    requires eventId.None? || eventId.value == ""
    ensures DlqFilter(eventId, None, None, _ => true, None, None, includeReplayed).Selects(row)
            <==> row.replayedAt.None? || includeReplayed
  {
  }

  function Selected(dead: seq<DeadLetter>, filter: DlqFilter): set<nat> {
    set r: nat | r < |dead| && filter.Selects(dead[r])
  }

  function ReceiptOrder(rows: map<EventId, Event>): EventId -> int {
    id => if id in rows then rows[id].facts.receivedAt else 0
  }

  function NewestFirst(dead: seq<DeadLetter>): nat -> int {
    (r: nat) => if r < |dead| then 0 - dead[r].deadLetteredAt as int else 0
  }

  /** With no limit in the way, every candidate is listed. */
  lemma OrderedIsAll<T(!new)>(candidates: set<T>, key: T -> int, xs: seq<T>)
    requires IsOrdered(candidates, key, |candidates|, xs)
    ensures forall c :: c in xs <==> c in candidates
  {
    var listed := set x | x in xs;
    assert listed <= candidates;
    if listed != candidates {
      DistinctListSize(xs);
      var c :| c in candidates && c !in listed;
      assert |xs| == |candidates|;
      assert listed + {c} <= candidates;
      SubsetSize(listed + {c}, candidates);
    }
  }

  lemma {:induction false} DistinctListSize<T>(xs: seq<T>)
    requires forall i, j :: 0 <= i < j < |xs| ==> xs[i] != xs[j]
    ensures |set x | x in xs| == |xs|
  {
    if xs != [] {
      DistinctListSize(xs[1..]);
      assert xs[0] !in xs[1..];
      assert (set x | x in xs) == {xs[0]} + set x | x in xs[1..];
    }
  }

  lemma {:induction false} SubsetSize<T>(a: set<T>, b: set<T>)
    requires a <= b
    ensures |a| <= |b|
  {
    if a != {} {
      var x :| x in a;
      SubsetSize(a - {x}, b - {x});
    }
  }

  lemma ClaimIsLegal(e: Event, now: nat, retryAfter: nat, staleAfter: nat)
    requires Eligible(e, now, retryAfter, staleAfter)
    ensures Changed(e, Claim, now).Some?
  {
  }

  /** No claim raises: every selected row may go to UPLOADING or is there already. */
  lemma SelectionIsLegal(db: Db, now: nat, limit: nat, retryAfter: nat, staleAfter: nat, locked: set<EventId>,
                         ids: seq<EventId>)
    requires IsSelection(db.events, now, limit, retryAfter, staleAfter, locked, ids)
    ensures Run(db, ClaimOps(ids, now)).Some?
    ensures IsRowByRow(db, ClaimOps(ids, now), Run(db, ClaimOps(ids, now)).value)
  {
    var ops := ClaimOps(ids, now);
    forall i | 0 <= i < |ops| ensures UpdatedRow(db, ops[i]).Some? {
      assert Claimable(db.events, ids[i], now, retryAfter, staleAfter, locked);
      ClaimIsLegal(db.events[ids[i]], now, retryAfter, staleAfter);
    }
    BatchRun(db, ops);
  }
}

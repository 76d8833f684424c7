/**
 * Exactly when the transactions that retry, settle or give up a batch commit, for any batch: one that
 * holds an event twice, rows that other processes have moved on, rows that do not exist.
 */
module Settlement {
  import opened Wrappers
  import opened Status
  import opened Model
  import opened Ledger
  import opened Transactions
  import opened Delivery

  // --- Updates act row by row, repeated rows included ---

  /** The calls among `ops` on one row, in order. */
  function CallsOn(ops: seq<Op>, id: EventId): (calls: seq<Op>)
    requires AreUpdates(ops)
    ensures AreUpdates(calls) && forall i :: 0 <= i < |calls| ==> calls[i] in ops && calls[i].id == id
  {
    if ops == [] then [] else (if ops[0].id == id then [ops[0]] else []) + CallsOn(ops[1..], id)
  }

  /** The row after these calls, one after the other; None when one of them is illegal when it is reached. */
  function RowAfter(e: Event, calls: seq<Op>): Option<Event>
    requires AreUpdates(calls)
    decreases |calls|
  {
    if calls == [] then Some(e)
    else match Changed(e, calls[0].change, calls[0].at) case None => None case Some(next) => RowAfter(next, calls[1..])
  }

  predicate RowCommits(db: Db, ops: seq<Op>, id: EventId)
    requires AreUpdates(ops)
  {
    CallsOn(ops, id) == [] || (id in db.events && RowAfter(db.events[id], CallsOn(ops, id)).Some?)
  }

  /** Every row is as its own calls leave it. */
  ghost predicate IsApart(db: Db, ops: seq<Op>, after: Db)
    requires AreUpdates(ops)
  {
    && after.events.Keys == db.events.Keys
    && forall id :: id in db.events ==> RowAfter(db.events[id], CallsOn(ops, id)) == Some(after.events[id])
  }

  lemma UpdateStep(db: Db, op: Op, next: Db)
    requires op.Update? && Step(db, op) == Some(next)
    ensures op.id in db.events && Changed(db.events[op.id], op.change, op.at).Some?
    ensures next.events == db.events[op.id := Changed(db.events[op.id], op.change, op.at).value]
  {
    hide Changed, RecordOf;
  }

  lemma FirstCall(e: Event, op: Op, rest: seq<Op>, next: Event)
    requires op.Update? && AreUpdates(rest) && Changed(e, op.change, op.at) == Some(next)
    ensures AreUpdates([op] + rest)
    ensures RowAfter(e, [op] + rest) == RowAfter(next, rest)
  {
    hide Changed;
    assert ([op] + rest)[1..] == rest;
  }

  lemma HeadCall(db: Db, ops: seq<Op>, next: Db, id: EventId)
    requires AreUpdates(ops) && ops != [] && Step(db, ops[0]) == Some(next)
    ensures AreUpdates(ops[1..])
    ensures RowCommits(db, ops, id) <==> RowCommits(next, ops[1..], id)
    ensures id in db.events ==>
              id in next.events
              && RowAfter(db.events[id], CallsOn(ops, id)) == RowAfter(next.events[id], CallsOn(ops[1..], id))
  {
    hide Step, RowAfter, Changed;
    UpdateStep(db, ops[0], next);
    if ops[0].id == id {
      assert CallsOn(ops, id) == [ops[0]] + CallsOn(ops[1..], id);
      FirstCall(db.events[id], ops[0], CallsOn(ops[1..], id), next.events[id]);
      NoCallsRun(next.events[id]);
    } else {
      assert CallsOn(ops, id) == CallsOn(ops[1..], id);
    }
  }

  lemma NoCallsRun(e: Event)
    ensures RowAfter(e, []) == Some(e)
  {
  }

  lemma HeadRaises(db: Db, ops: seq<Op>)
    requires AreUpdates(ops) && ops != [] && Step(db, ops[0]) == None
    ensures !RowCommits(db, ops, ops[0].id)
  {
    assert CallsOn(ops, ops[0].id)[0] == ops[0];
  }

  /**
   * A list of updates commits exactly when, for every row, the calls on that row alone would, and then
   * every row is as its own calls leave it.
   */
  lemma {:induction false} RowsRunApart(db: Db, ops: seq<Op>)
    requires AreUpdates(ops)
    ensures Run(db, ops).Some? <==> forall id :: RowCommits(db, ops, id)
    ensures Run(db, ops).Some? ==> IsApart(db, ops, Run(db, ops).value)
    decreases |ops|
  {
    if ops != [] {
      match Step(db, ops[0]) {
        case None => HeadRaises(db, ops);
        case Some(next) =>
          RowsRunApart(next, ops[1..]);
          forall id
            ensures RowCommits(db, ops, id) <==> RowCommits(next, ops[1..], id)
            ensures id in db.events ==>
                      id in next.events
                      && RowAfter(db.events[id], CallsOn(ops, id)) == RowAfter(next.events[id], CallsOn(ops[1..], id))
          {
            HeadCall(db, ops, next, id);
          }
          assert next.events.Keys == db.events.Keys;
      }
    }
  }

  lemma {:induction false} CalledIffTarget(ops: seq<Op>, id: EventId)
    requires AreUpdates(ops)
    ensures CallsOn(ops, id) != [] <==> IsTarget(ops, id)
  {
    if ops != [] {
      CalledIffTarget(ops[1..], id);
      if IsTarget(ops, id) && ops[0].id != id {
        var i :| 0 <= i < |ops| && ops[i].Update? && ops[i].id == id;
        assert ops[1..][i - 1].id == id;
      }
      if IsTarget(ops[1..], id) {
        var i :| 0 <= i < |ops[1..]| && ops[1..][i].Update? && ops[1..][i].id == id;
        assert ops[i + 1].id == id;
      }
    }
  }

  // --- Settling ---

  /** A verdict on one row, as a ledger call. */
  predicate AreVerdicts(calls: seq<Op>) {
    forall i :: 0 <= i < |calls| ==>
      calls[i].Update? && (calls[i].change.MarkUploaded? || calls[i].change.MarkRetryable?
                           || calls[i].change.DeadLetterRow?)
  }

  /** The verdicts a row in this state can take: one; or one that puts it back and then one that buries it. */
  predicate CanSettle(status: EventStatus, verdicts: seq<Op>)
    requires AreVerdicts(verdicts)
  {
    match status
    case Uploading =>
      |verdicts| == 1
      || (|verdicts| == 2 && verdicts[0].change.MarkRetryable? && verdicts[1].change.DeadLetterRow?)
    case FailedRetryable => |verdicts| == 1 && verdicts[0].change.DeadLetterRow?
    case _ => false
  }

  /** After a verdict that is final, or on a row in any other state, no verdict is legal. */
  lemma NoVerdictElsewhere(e: Event, verdicts: seq<Op>)
    requires AreVerdicts(verdicts) && verdicts != [] && e.status !in {Uploading, FailedRetryable}
    ensures RowAfter(e, verdicts) == None
  {
  }

  lemma RetryableRowSettlesIff(e: Event, verdicts: seq<Op>)
    requires AreVerdicts(verdicts) && verdicts != [] && e.status == FailedRetryable
    ensures RowAfter(e, verdicts).Some? <==> |verdicts| == 1 && verdicts[0].change.DeadLetterRow?
  {
    var next := Changed(e, verdicts[0].change, verdicts[0].at);
    if next.Some? && |verdicts| > 1 {
      NoVerdictElsewhere(next.value, verdicts[1..]);
    }
  }

  lemma RowSettlesIff(e: Event, verdicts: seq<Op>)
    requires AreVerdicts(verdicts) && verdicts != []
    ensures RowAfter(e, verdicts).Some? <==> CanSettle(e.status, verdicts)
  {
    if e.status == FailedRetryable {
      RetryableRowSettlesIff(e, verdicts);
    } else if e.status != Uploading {
      NoVerdictElsewhere(e, verdicts);
    } else if |verdicts| > 1 {
      var next := Changed(e, verdicts[0].change, verdicts[0].at).value;
      assert verdicts[1..][0] == verdicts[1];
      if next.status == FailedRetryable {
        RetryableRowSettlesIff(next, verdicts[1..]);
      } else {
        NoVerdictElsewhere(next, verdicts[1..]);
      }
    }
  }

  /** The verdicts on one event of the batch, in batch order. */
  function VerdictsOn(batch: seq<Claimed>, rows: seq<RowResult>, now: nat, id: EventId): (verdicts: seq<Op>)
    requires |batch| == |rows|
    ensures AreVerdicts(verdicts)
  {
    CallsOn(ApplyOps(batch, rows, now), id)
  }

  /** There are as many of them as times the event is in the batch. */
  lemma {:induction false} OneVerdictPerOccurrence(batch: seq<Claimed>, rows: seq<RowResult>, now: nat, id: EventId)
    requires |batch| == |rows|
    ensures |VerdictsOn(batch, rows, now, id)| == multiset(Ids(batch))[id]
    decreases |batch|
  {
    if batch != [] {
      OneVerdictPerOccurrence(batch[1..], rows[1..], now, id);
      assert ApplyOps(batch, rows, now)[1..] == ApplyOps(batch[1..], rows[1..], now);
      assert Ids(batch) == [batch[0].eventId] + Ids(batch[1..]);
    }
  }

  /** Every row of the batch exists, and takes the verdicts on it. */
  predicate CanSettleAll(db: Db, batch: seq<Claimed>, rows: seq<RowResult>, now: nat)
    requires |batch| == |rows|
  {
    forall i :: 0 <= i < |batch| ==>
      batch[i].eventId in db.events
      && CanSettle(db.events[batch[i].eventId].status, VerdictsOn(batch, rows, now, batch[i].eventId))
  }

  lemma TargetIsInBatch(batch: seq<Claimed>, rows: seq<RowResult>, now: nat, id: EventId)
    requires |batch| == |rows|
    ensures VerdictsOn(batch, rows, now, id) != [] <==> InBatch(batch, id)
  {
    var ops := ApplyOps(batch, rows, now);
    CalledIffTarget(ops, id);
    if i :| 0 <= i < |batch| && batch[i].eventId == id {
      assert ops[i].Update? && ops[i].id == id;
    }
    if IsTarget(ops, id) {
      var i :| 0 <= i < |ops| && ops[i].Update? && ops[i].id == id;
      assert batch[i].eventId == id;
    }
  }

  /**
   * The settlement of a batch commits exactly when there is one result per row and every event takes
   * the verdicts on it: an UPLOADING row that is in the batch once takes any, one that is in it twice
   * only a retryable verdict followed by a permanent one, and a row that is FAILED_RETRYABLE by then
   * only a permanent one.
   */
  lemma SettlementCommitsIff(db: Db, batch: seq<Claimed>, rows: seq<RowResult>, now: nat)
    ensures ApplyTx(db, batch, rows, now).Some? <==> |rows| == |batch| && CanSettleAll(db, batch, rows, now)
  {
    if |rows| == |batch| {
      var ops := ApplyOps(batch, rows, now);
      RowsRunApart(db, ops);
      forall id ensures RowCommits(db, ops, id) <==> TakesVerdicts(db, batch, rows, now, id) {
        TargetIsInBatch(batch, rows, now, id);
        if id in db.events && CallsOn(ops, id) != [] {
          RowSettlesIff(db.events[id], CallsOn(ops, id));
        }
      }
      if forall id :: TakesVerdicts(db, batch, rows, now, id) {
        forall i | 0 <= i < |batch| ensures TakesVerdicts(db, batch, rows, now, batch[i].eventId) {
        }
      }
    }
  }

  predicate TakesVerdicts(db: Db, batch: seq<Claimed>, rows: seq<RowResult>, now: nat, id: EventId)
    requires |batch| == |rows|
  {
    InBatch(batch, id) ==>
      id in db.events && CanSettle(db.events[id].status, VerdictsOn(batch, rows, now, id))
  }

  /** For rows that are all UPLOADING: each event once, or twice with a retryable and then a permanent verdict. */
  lemma UploadingBatchSettlesIff(db: Db, batch: seq<Claimed>, rows: seq<RowResult>, now: nat)
    requires |batch| == |rows| && forall i :: 0 <= i < |batch| ==> db.Has(batch[i].eventId, Uploading)
    ensures ApplyTx(db, batch, rows, now).Some?
            <==> forall i :: 0 <= i < |batch| ==>
                   var verdicts := VerdictsOn(batch, rows, now, batch[i].eventId);
                   multiset(Ids(batch))[batch[i].eventId] == 1
                   || (multiset(Ids(batch))[batch[i].eventId] == 2 && |verdicts| == 2
                       && verdicts[0].change.MarkRetryable? && verdicts[1].change.DeadLetterRow?)
  {
    SettlementCommitsIff(db, batch, rows, now);
    forall i | 0 <= i < |batch|
      ensures |VerdictsOn(batch, rows, now, batch[i].eventId)| == multiset(Ids(batch))[batch[i].eventId]
    {
      OneVerdictPerOccurrence(batch, rows, now, batch[i].eventId);
    }
    assert forall i :: 0 <= i < |batch| ==> db.Has(batch[i].eventId, Uploading);
  }

  // --- Retrying ---

  predicate AreRetries(calls: seq<Op>) {
    forall i :: 0 <= i < |calls| ==> calls[i].Update? && calls[i].change.RecordRetry?
  }

  lemma {:induction false} RowRetriesIff(e: Event, calls: seq<Op>)
    requires AreRetries(calls) && calls != []
    ensures RowAfter(e, calls).Some? <==> e.status == Uploading
    decreases |calls|
  {
    if e.status == Uploading && |calls| > 1 {
      RowRetriesIff(Changed(e, calls[0].change, calls[0].at).value, calls[1..]);
    }
  }

  lemma {:induction false} LoadedIff(db: Db, ids: seq<EventId>, id: EventId)
    ensures id in Load(db, ids) <==> id in ids && id in db.events
  {
    if ids != [] {
      LoadedIff(db, ids[1..], id);
    }
  }

  lemma AllUpdatesTarget(ids: seq<EventId>, change: Change, now: nat, id: EventId)
    ensures IsTarget(UpdateAll(ids, change, now), id) <==> id in ids
  {
    var ops := UpdateAll(ids, change, now);
    if id in ids {
      var i :| 0 <= i < |ids| && ids[i] == id;
      assert ops[i].id == id;
    }
  }

  /** Recording a retry commits exactly when every row of the batch that exists is UPLOADING, repeated or not. */
  lemma RetryCommitsIff(db: Db, batch: seq<Claimed>, cause: string, now: nat)
    ensures Run(db, RetryOps(db, batch, cause, now)).Some?
            <==> forall i :: 0 <= i < |batch| && batch[i].eventId in db.events ==> db.Has(batch[i].eventId, Uploading)
  {
    var ids := Load(db, Ids(batch));
    var ops := RetryOps(db, batch, cause, now);
    RowsRunApart(db, ops);
    forall id ensures RowCommits(db, ops, id) <==> (id in ids ==> db.Has(id, Uploading)) {
      AllUpdatesTarget(ids, RecordRetry(cause), now, id);
      CalledIffTarget(ops, id);
      LoadedIff(db, Ids(batch), id);
      if id in ids {
        RowRetriesIff(db.events[id], CallsOn(ops, id));
      }
    }
    LoadedAreOfBatch(db, batch);
  }

  lemma LoadedAreOfBatch(db: Db, batch: seq<Claimed>)
    ensures forall id :: id in Load(db, Ids(batch))
                         <==> id in db.events && InBatch(batch, id)
  {
    forall id
      ensures id in Load(db, Ids(batch)) <==> id in db.events && InBatch(batch, id)
    {
      LoadedIff(db, Ids(batch), id);
      if i :| 0 <= i < |batch| && batch[i].eventId == id {
        assert Ids(batch)[i] == id;
      }
    }
  }

  // --- Giving up ---

  lemma {:induction false} FirstOccurrencesDiffer(ids: seq<EventId>)
    ensures forall i, j :: 0 <= i < j < |FirstOccurrences(ids)| ==> FirstOccurrences(ids)[i] != FirstOccurrences(ids)[j]
  {
    if ids != [] {
      FirstOccurrencesDiffer(ids[..|ids| - 1]);
    }
  }

  lemma {:induction false} LoadedDiffer(db: Db, ids: seq<EventId>)
    requires forall i, j :: 0 <= i < j < |ids| ==> ids[i] != ids[j]
    ensures forall i, j :: 0 <= i < j < |Load(db, ids)| ==> Load(db, ids)[i] != Load(db, ids)[j]
  {
    if ids != [] {
      LoadedDiffer(db, ids[1..]);
      LoadedIff(db, ids[1..], ids[0]);
    }
  }

  /** The events a batch names, each once, that exist. */
  function GivenUp(db: Db, batch: seq<Claimed>): seq<EventId> {
    Load(db, FirstOccurrences(Ids(batch)))
  }

  lemma GivenUpAre(db: Db, batch: seq<Claimed>)
    ensures forall i, j :: 0 <= i < j < |GivenUp(db, batch)| ==> GivenUp(db, batch)[i] != GivenUp(db, batch)[j]
    ensures forall i :: 0 <= i < |batch| && batch[i].eventId in db.events ==> batch[i].eventId in GivenUp(db, batch)
    ensures forall i :: 0 <= i < |GivenUp(db, batch)| ==>
              GivenUp(db, batch)[i] in db.events && InBatch(batch, GivenUp(db, batch)[i])
  {
    var ids := GivenUp(db, batch);
    FirstOccurrencesDiffer(Ids(batch));
    LoadedDiffer(db, FirstOccurrences(Ids(batch)));
    forall i | 0 <= i < |batch| && batch[i].eventId in db.events ensures batch[i].eventId in ids {
      assert Ids(batch)[i] in Ids(batch);
      LoadedIff(db, FirstOccurrences(Ids(batch)), batch[i].eventId);
    }
    forall i | 0 <= i < |ids| ensures ids[i] in db.events && InBatch(batch, ids[i]) {
      LoadedIff(db, FirstOccurrences(Ids(batch)), ids[i]);
      assert ids[i] in ids && ids[i] in Ids(batch);
    }
  }

  /** Giving a batch up calls once for each of its events that exists. */
  lemma GivingUpOps(db: Db, batch: seq<Claimed>, failureClass: FailureClass, reason: Reason, code: string, now: nat)
    ensures var ops := DeadLetterAllOps(db, batch, failureClass, reason, code, now);
            && |ops| == |GivenUp(db, batch)|
            && forall i :: 0 <= i < |ops| ==> ops[i].id == GivenUp(db, batch)[i] && ops[i].change.DeadLetterRow?
  {
    LoadedAreListed(db, FirstOccurrences(Ids(batch)));
  }

  lemma CanBury(db: Db, op: Op)
    requires op.Update? && op.change.DeadLetterRow? && op.id in db.events
    ensures UpdatedRow(db, op).Some? <==> db.events[op.id].status in {Uploading, FailedRetryable}
  {
  }

  predicate CanGiveUp(db: Db, id: EventId) {
    id in db.events ==> db.events[id].status in {Uploading, FailedRetryable}
  }

  lemma GivingUpRuns(db: Db, ids: seq<EventId>, ops: seq<Op>)
    requires AreUpdates(ops) && |ops| == |ids|
    requires forall i :: 0 <= i < |ops| ==> ops[i].id == ids[i] && ops[i].change.DeadLetterRow? && ids[i] in db.events
    requires forall i, j :: 0 <= i < j < |ids| ==> ids[i] != ids[j]
    ensures HaveDistinctTargets(ops)
    ensures Run(db, ops).Some? <==> forall i :: 0 <= i < |ids| ==> CanGiveUp(db, ids[i])
  {
    forall i | 0 <= i < |ops| ensures UpdatedRow(db, ops[i]).Some? <==> CanGiveUp(db, ids[i]) {
      CanBury(db, ops[i]);
    }
    BatchRun(db, ops);
    hide Run;
  }

  /** Giving up commits exactly when every row of the batch that exists is UPLOADING or FAILED_RETRYABLE. */
  lemma GivingUpCommitsIff(db: Db, batch: seq<Claimed>, failureClass: FailureClass, reason: Reason, code: string,
                           now: nat)
    ensures Run(db, DeadLetterAllOps(db, batch, failureClass, reason, code, now)).Some?
            <==> forall i :: 0 <= i < |batch| ==> CanGiveUp(db, batch[i].eventId)
  {
    hide DeadLetterAllOps, Run, GivenUp;
    var ids := GivenUp(db, batch);
    GivenUpAre(db, batch);
    GivingUpOps(db, batch, failureClass, reason, code, now);
    GivingUpRuns(db, ids, DeadLetterAllOps(db, batch, failureClass, reason, code, now));
    if forall i :: 0 <= i < |ids| ==> CanGiveUp(db, ids[i]) {
      forall i | 0 <= i < |batch| ensures CanGiveUp(db, batch[i].eventId) {
        if batch[i].eventId in db.events {
          assert batch[i].eventId in ids;
        }
      }
    }
    if forall i :: 0 <= i < |batch| ==> CanGiveUp(db, batch[i].eventId) {
      forall i | 0 <= i < |ids| ensures CanGiveUp(db, ids[i]) {
        assert InBatch(batch, ids[i]);
      }
    }
  }
}

/**
 * One batch from its first request to its settlement, as a function of what every attempt brings.
 * Stated against it: the exact log lines each row gains, whatever the sequence of outcomes.
 */
module Delivery {
  import opened Wrappers
  import opened Status
  import opened Model
  import opened Ledger
  import opened Transactions

  /** How one request ends, as the client reports it. */
  datatype Answer =
    | Rows(rows: seq<RowResult>)
    | TransientFailure(why: string)
    | PermanentFailure(why: string)

  /**
   * What the world brings to attempt k: its answer, whether the elapsed-time ceiling has passed when it
   * fails, and the time at which a retry after it is recorded.
   */
  datatype World = World(answer: nat -> Answer, late: nat -> bool, recordedAt: nat -> nat)

  /** Settled with a report, or ended by an exception after the last committed transaction. */
  datatype Delivered =
    | Settled(db: Db, report: CycleReport, requests: nat)
    | Raised(db: Db, requests: nat)

  function DeadLetterAll(db: Db, batch: seq<Claimed>, failureClass: FailureClass, reason: Reason, code: string,
                         now: nat, requests: nat): Delivered
  {
    match Run(db, DeadLetterAllOps(db, batch, failureClass, reason, code, now))
    case None => Raised(db, requests)
    case Some(after) => Settled(after, CycleReport(0, 0, |batch|), requests)
  }

  /** The attempts from number `attempt` on. */
  function Deliver(db: Db, batch: seq<Claimed>, now: nat, world: World, attempt: nat, maxAttempts: nat): Delivered
    decreases maxAttempts - attempt
  {
    match world.answer(attempt)
    case Rows(rows) =>
      (match ApplyTx(db, batch, rows, now)
       case None => Raised(db, attempt)
       case Some((after, report)) => Settled(after, report, attempt))
    case PermanentFailure(why) =>
      DeadLetterAll(db, batch, Permanent, PermanentRequest(why), why, now, attempt)
    case TransientFailure(why) =>
      if attempt >= maxAttempts || world.late(attempt)
      then DeadLetterAll(db, batch, Poison, PoisonRequest(why, attempt), why, now, attempt)
      else
        match Run(db, RetryOps(db, batch, why, world.recordedAt(attempt)))
        case None => Raised(db, attempt)
        case Some(next) => Deliver(next, batch, now, world, attempt + 1, maxAttempts)
  }

  /** A batch of distinct rows, all of them in UPLOADING. */
  predicate IsOwned(db: Db, batch: seq<Claimed>) {
    && (forall i, j :: 0 <= i < j < |batch| ==> batch[i].eventId != batch[j].eventId)
    && forall i :: 0 <= i < |batch| ==> db.Has(batch[i].eventId, Uploading)
  }

  predicate InBatch(batch: seq<Claimed>, id: EventId) {
    exists i :: 0 <= i < |batch| && batch[i].eventId == id
  }

  /** The client returns one result per row sent. */
  ghost predicate AnswersFit(world: World, size: nat) {
    forall k: nat :: world.answer(k).Rows? ==> |world.answer(k).rows| == size
  }

  /** The change that ends each row, given the answer of the last attempt. */
  function FinalChange(answer: Answer, batch: seq<Claimed>, i: nat, attempts: nat): Change
    requires i < |batch| && (answer.Rows? ==> |answer.rows| == |batch|)
  {
    match answer
    case Rows(rows) => RowChange(batch[i], rows[i])
    case PermanentFailure(why) => DeadLetterRow(Permanent, PermanentRequest(why), Some(why), batch[i].conversion)
    case TransientFailure(why) =>
      DeadLetterRow(Poison, PoisonRequest(why, attempts), Some(why), batch[i].conversion)
  }

  /** The changes an upload makes to a row in UPLOADING; each of them is legal there. */
  predicate IsUploadChange(change: Change) {
    change.RecordRetry? || change.MarkUploaded? || change.MarkRetryable? || change.DeadLetterRow?
  }

  /** The calls that make one such change to each row of the batch. */
  predicate AreBatchOps(ops: seq<Op>, batch: seq<Claimed>, now: nat) {
    |ops| == |batch|
    && forall i :: 0 <= i < |ops| ==>
         ops[i].Update? && ops[i].id == batch[i].eventId && ops[i].at == now && IsUploadChange(ops[i].change)
  }

  /** Every row of the batch has its own change, and no other row has any. */
  predicate IsBatchResult(db: Db, batch: seq<Claimed>, ops: seq<Op>, after: Db)
    requires |ops| == |batch| && AreUpdates(ops)
  {
    && after.events.Keys == db.events.Keys
    && (forall i :: 0 <= i < |batch| ==>
          && batch[i].eventId in db.events
          && Changed(db.events[batch[i].eventId], ops[i].change, ops[i].at) == Some(after.events[batch[i].eventId]))
    && (forall id :: id in db.events && !InBatch(batch, id) ==> after.events[id] == db.events[id])
  }

  lemma OwnedBatchRuns(db: Db, batch: seq<Claimed>, ops: seq<Op>, now: nat)
    requires IsOwned(db, batch) && AreBatchOps(ops, batch, now)
    ensures Run(db, ops).Some? && IsBatchResult(db, batch, ops, Run(db, ops).value)
  {
    forall i | 0 <= i < |ops| ensures UpdatedRow(db, ops[i]).Some? {
      assert db.Has(batch[i].eventId, Uploading);
    }
    BatchRun(db, ops);
    var after := Run(db, ops).value;
    forall id | id in db.events && !InBatch(batch, id) ensures after.events[id] == db.events[id] {
      assert !IsTarget(ops, id);
    }
    assert forall i :: 0 <= i < |batch| ==> UpdatedRow(db, ops[i]) == Some(after.events[ops[i].id]);
  }

  lemma RetryOpsOfOwned(db: Db, batch: seq<Claimed>, cause: string, now: nat)
    requires IsOwned(db, batch)
    ensures AreBatchOps(RetryOps(db, batch, cause, now), batch, now)
    ensures forall i :: 0 <= i < |batch| ==> RetryOps(db, batch, cause, now)[i].change == RecordRetry(cause)
  {
    assert forall i :: 0 <= i < |batch| ==> db.Has(batch[i].eventId, Uploading);
    assert Load(db, Ids(batch)) == Ids(batch);
  }

  lemma LoadedOfOwned(db: Db, batch: seq<Claimed>)
    requires IsOwned(db, batch)
    ensures Load(db, FirstOccurrences(Ids(batch))) == Ids(batch)
  {
    assert forall i :: 0 <= i < |batch| ==> db.Has(batch[i].eventId, Uploading);
    assert FirstOccurrences(Ids(batch)) == Ids(batch);
  }

  lemma EntryOfOwned(batch: seq<Claimed>, i: nat)
    requires i < |batch| && forall i, j :: 0 <= i < j < |batch| ==> batch[i].eventId != batch[j].eventId
    ensures batch[i].eventId in Ids(batch) && EntryOf(batch, batch[i].eventId) == batch[i]
  {
    assert Ids(batch)[i] == batch[i].eventId;
    var entry := EntryOf(batch, batch[i].eventId);
    var j :| 0 <= j < |batch| && batch[j] == entry;
  }

  lemma DeadLetterOpOfOwned(db: Db, batch: seq<Claimed>, failureClass: FailureClass, reason: Reason, code: string,
                            now: nat, i: nat)
    requires IsOwned(db, batch) && i < |batch|
    ensures var ops := DeadLetterAllOps(db, batch, failureClass, reason, code, now);
            && |ops| == |batch|
            && ops[i]
               == Update(batch[i].eventId, DeadLetterRow(failureClass, reason, Some(code), batch[i].conversion), now)
  {
    LoadedOfOwned(db, batch);
    EntryOfOwned(batch, i);
  }

  lemma DeadLetterAllOpsOfOwned(db: Db, batch: seq<Claimed>, failureClass: FailureClass, reason: Reason, code: string,
                                now: nat)
    requires IsOwned(db, batch)
    ensures var ops := DeadLetterAllOps(db, batch, failureClass, reason, code, now);
            && AreBatchOps(ops, batch, now)
            && forall i :: 0 <= i < |batch| ==>
                 ops[i].change == DeadLetterRow(failureClass, reason, Some(code), batch[i].conversion)
  {
    var ops := DeadLetterAllOps(db, batch, failureClass, reason, code, now);
    if batch == [] {
      assert Load(db, FirstOccurrences(Ids(batch))) == [];
    }
    forall i | 0 <= i < |batch|
      ensures |ops| == |batch|
      ensures ops[i] == Update(batch[i].eventId, DeadLetterRow(failureClass, reason, Some(code), batch[i].conversion),
                               now)
    {
      DeadLetterOpOfOwned(db, batch, failureClass, reason, code, now, i);
    }
  }

  lemma ApplyOpsOfBatch(batch: seq<Claimed>, rows: seq<RowResult>, now: nat)
    requires |batch| == |rows|
    ensures AreBatchOps(ApplyOps(batch, rows, now), batch, now)
  {
  }

  /** The row after the retries recorded following attempts first, ..., last - 1. */
  function AfterRetries(e: Event, world: World, first: nat, last: nat): Event
    requires first <= last
    decreases last - first
  {
    if first == last then e
    else
      var cause := match world.answer(first) case TransientFailure(why) => why case _ => "";
      match Changed(e, RecordRetry(cause), world.recordedAt(first))
      case None => e
      case Some(next) => AfterRetries(next, world, first + 1, last)
  }

  /** Which rows of the batch are in this status. */
  function RowsIn(db: Db, batch: seq<Claimed>, status: EventStatus): set<nat> {
    set i: nat | i < |batch| && db.Has(batch[i].eventId, status)
  }

  /** The report counts the rows of the batch by the status they ended in. */
  predicate IsReportOf(report: CycleReport, db: Db, batch: seq<Claimed>) {
    && report.uploaded == |RowsIn(db, batch, Uploaded)|
    && report.retryLater == |RowsIn(db, batch, FailedRetryable)|
    && report.deadLettered == |RowsIn(db, batch, DeadLettered)|
  }

  /** The calls of a list of updates that upload, put back or bury their rows. */
  function Uploads(ops: seq<Op>): set<nat>
    requires AreUpdates(ops)
  {
    set i: nat | i < |ops| && ops[i].change.MarkUploaded?
  }

  function Postponements(ops: seq<Op>): set<nat>
    requires AreUpdates(ops)
  {
    set i: nat | i < |ops| && ops[i].change.MarkRetryable?
  }

  function Burials(ops: seq<Op>): set<nat>
    requires AreUpdates(ops)
  {
    set i: nat | i < |ops| && ops[i].change.DeadLetterRow?
  }

  /** The report counts the calls by what they do. */
  predicate CountsCalls(report: CycleReport, ops: seq<Op>)
    requires AreUpdates(ops)
  {
    && report.uploaded == |Uploads(ops)|
    && report.retryLater == |Postponements(ops)|
    && report.deadLettered == |Burials(ops)|
  }

  lemma CallsMakeStatuses(db: Db, batch: seq<Claimed>, ops: seq<Op>, now: nat, after: Db, report: CycleReport)
    requires AreBatchOps(ops, batch, now) && IsBatchResult(db, batch, ops, after) && CountsCalls(report, ops)
    requires forall i :: 0 <= i < |ops| ==> !ops[i].change.RecordRetry?
    ensures IsReportOf(report, after, batch)
  {
    forall i: nat | i < |batch|
      ensures after.Has(batch[i].eventId, Uploaded) <==> ops[i].change.MarkUploaded?
      ensures after.Has(batch[i].eventId, FailedRetryable) <==> ops[i].change.MarkRetryable?
      ensures after.Has(batch[i].eventId, DeadLettered) <==> ops[i].change.DeadLetterRow?
    {
      assert Changed(db.events[batch[i].eventId], ops[i].change, ops[i].at) == Some(after.events[batch[i].eventId]);
    }
    assert RowsIn(after, batch, Uploaded) == Uploads(ops);
    assert RowsIn(after, batch, FailedRetryable) == Postponements(ops);
    assert RowsIn(after, batch, DeadLettered) == Burials(ops);
  }

  lemma OneMoreIndex(before: set<nat>, after: set<nat>, n: nat, added: bool)
    requires n !in before && after == if added then before + {n} else before
    ensures |after| == |before| + if added then 1 else 0
  {
  }

  lemma LastUploads(ops: seq<Op>, before: seq<Op>, n: nat)
    requires AreUpdates(ops) && |ops| == n + 1 && before == ops[..n]
    ensures AreUpdates(before) && |Uploads(ops)| == |Uploads(before)| + if ops[n].change.MarkUploaded? then 1 else 0
  {
    assert forall i :: 0 <= i < n ==> before[i] == ops[i];
    var last := if ops[n].change.MarkUploaded? then {n} else {};
    assert Uploads(ops) == Uploads(before) + last;
    OneMoreIndex(Uploads(before), Uploads(ops), n, ops[n].change.MarkUploaded?);
  }

  lemma LastPostponements(ops: seq<Op>, before: seq<Op>, n: nat)
    requires AreUpdates(ops) && |ops| == n + 1 && before == ops[..n]
    ensures AreUpdates(before)
    ensures |Postponements(ops)| == |Postponements(before)| + if ops[n].change.MarkRetryable? then 1 else 0
  {
    assert forall i :: 0 <= i < n ==> before[i] == ops[i];
    var last := if ops[n].change.MarkRetryable? then {n} else {};
    assert Postponements(ops) == Postponements(before) + last;
    OneMoreIndex(Postponements(before), Postponements(ops), n, ops[n].change.MarkRetryable?);
  }

  lemma LastBurials(ops: seq<Op>, before: seq<Op>, n: nat)
    requires AreUpdates(ops) && |ops| == n + 1 && before == ops[..n]
    ensures AreUpdates(before) && |Burials(ops)| == |Burials(before)| + if ops[n].change.DeadLetterRow? then 1 else 0
  {
    assert forall i :: 0 <= i < n ==> before[i] == ops[i];
    var last := if ops[n].change.DeadLetterRow? then {n} else {};
    assert Burials(ops) == Burials(before) + last;
    OneMoreIndex(Burials(before), Burials(ops), n, ops[n].change.DeadLetterRow?);
  }

  lemma LastCallCounts(ops: seq<Op>)
    requires AreUpdates(ops) && ops != []
    ensures var n, before := |ops| - 1, ops[..|ops| - 1];
            && |Uploads(ops)| == |Uploads(before)| + (if ops[n].change.MarkUploaded? then 1 else 0)
            && |Postponements(ops)| == |Postponements(before)| + (if ops[n].change.MarkRetryable? then 1 else 0)
            && |Burials(ops)| == |Burials(before)| + (if ops[n].change.DeadLetterRow? then 1 else 0)
  {
    hide Uploads, Postponements, Burials;
    var n, before := |ops| - 1, ops[..|ops| - 1];
    LastUploads(ops, before, n);
    LastPostponements(ops, before, n);
    LastBurials(ops, before, n);
  }

  /** The tally of a settlement counts its calls. */
  lemma {:induction false} TallyCounts(batch: seq<Claimed>, rows: seq<RowResult>, now: nat)
    requires |batch| == |rows|
    ensures CountsCalls(Tally(batch, rows), ApplyOps(batch, rows, now))
    decreases |batch|
  {
    hide Uploads, Postponements, Burials, RowChange;
    if batch == [] {
      NothingCounts([]);
    } else {
      var n := |batch| - 1;
      TallyCounts(batch[..n], rows[..n], now);
      LastCallCounts(ApplyOps(batch, rows, now));
      assert ApplyOps(batch, rows, now)[..n] == ApplyOps(batch[..n], rows[..n], now);
      RowChangeKinds(batch[n], rows[n]);
    }
  }

  lemma RowChangeKinds(claimed: Claimed, row: RowResult)
    ensures var change := RowChange(claimed, row);
            change.MarkUploaded? || change.MarkRetryable? || change.DeadLetterRow?
  {
  }

  lemma NothingCounts(ops: seq<Op>)
    requires ops == []
    ensures CountsCalls(CycleReport(0, 0, 0), ops)
  {
    assert Uploads(ops) == {} && Postponements(ops) == {} && Burials(ops) == {};
  }

  lemma {:induction false} AllBuriedCounts(ops: seq<Op>)
    requires AreUpdates(ops) && forall i :: 0 <= i < |ops| ==> ops[i].change.DeadLetterRow?
    ensures CountsCalls(CycleReport(0, 0, |ops|), ops)
    decreases |ops|
  {
    hide Uploads, Postponements, Burials;
    if ops == [] {
      NothingCounts(ops);
    } else {
      AllBuriedCounts(ops[..|ops| - 1]);
      LastCallCounts(ops);
    }
  }

  /**
   * A batch settled after `d.requests` attempts, the first of them number `first`: every row shows one
   * retry per attempt but the last, then the one change its own answer, or the verdict on the whole
   * request, calls for; the report counts the rows by the status they ended in; and no other row is touched.
   */
  ghost predicate IsSettledRowByRow(db: Db, batch: seq<Claimed>, now: nat, world: World, first: nat, d: Delivered)
    requires AnswersFit(world, |batch|)
  {
    && d.Settled? && first <= d.requests
    && d.report.uploaded + d.report.retryLater + d.report.deadLettered == |batch|
    && IsReportOf(d.report, d.db, batch)
    && d.db.events.Keys == db.events.Keys
    && (forall i :: 0 <= i < |batch| ==>
          && batch[i].eventId in db.events
          && IsRowSettled(db.events[batch[i].eventId], d.db.events[batch[i].eventId], world, first, d.requests,
                          FinalChange(world.answer(d.requests), batch, i, d.requests), now))
    && (forall id :: id in db.events && !InBatch(batch, id) ==> d.db.events[id] == db.events[id])
  }

  /** The row after its retries and its final change. */
  predicate IsRowSettled(before: Event, after: Event, world: World, first: nat, last: nat, final: Change, now: nat) {
    first <= last && Changed(AfterRetries(before, world, first, last), final, now) == Some(after)
  }

  /** The last attempt. */
  lemma LastAttemptSettles(db: Db, batch: seq<Claimed>, now: nat, world: World, attempt: nat, ops: seq<Op>,
                           report: CycleReport)
    requires IsOwned(db, batch) && AnswersFit(world, |batch|) && AreBatchOps(ops, batch, now)
    requires forall i :: 0 <= i < |batch| ==> ops[i].change == FinalChange(world.answer(attempt), batch, i, attempt)
    requires report.uploaded + report.retryLater + report.deadLettered == |batch| && CountsCalls(report, ops)
    ensures Run(db, ops).Some?
    ensures IsSettledRowByRow(db, batch, now, world, attempt, Settled(Run(db, ops).value, report, attempt))
  {
    OwnedBatchRuns(db, batch, ops, now);
    var after := Run(db, ops).value;
    forall i | 0 <= i < |ops| ensures !ops[i].change.RecordRetry? {
      assert ops[i].change == FinalChange(world.answer(attempt), batch, i, attempt);
    }
    CallsMakeStatuses(db, batch, ops, now, after, report);
    forall i | 0 <= i < |batch|
      ensures IsRowSettled(db.events[batch[i].eventId], after.events[batch[i].eventId], world, attempt, attempt,
                           FinalChange(world.answer(attempt), batch, i, attempt), now)
    {
      assert AfterRetries(db.events[batch[i].eventId], world, attempt, attempt) == db.events[batch[i].eventId];
      assert ops[i].change == FinalChange(world.answer(attempt), batch, i, attempt);
    }
  }

  /** A verdict on the whole request. */
  lemma VerdictSettles(db: Db, batch: seq<Claimed>, now: nat, world: World, attempt: nat, failureClass: FailureClass,
                       reason: Reason, code: string)
    requires IsOwned(db, batch) && AnswersFit(world, |batch|)
    requires forall i :: 0 <= i < |batch| ==>
               FinalChange(world.answer(attempt), batch, i, attempt)
               == DeadLetterRow(failureClass, reason, Some(code), batch[i].conversion)
    ensures IsSettledRowByRow(db, batch, now, world, attempt,
                              DeadLetterAll(db, batch, failureClass, reason, code, now, attempt))
    ensures DeadLetterAll(db, batch, failureClass, reason, code, now, attempt).requests == attempt
  {
    hide DeadLetterAllOps, IsSettledRowByRow, CountsCalls, IsOwned, Run, FinalChange, AnswersFit;
    var ops := DeadLetterAllOps(db, batch, failureClass, reason, code, now);
    DeadLetterAllOpsOfOwned(db, batch, failureClass, reason, code, now);
    AllBuriedCounts(ops);
    LastAttemptSettles(db, batch, now, world, attempt, ops, CycleReport(0, 0, |batch|));
  }

  /** One recorded retry before the rest. */
  lemma RetryThenSettled(db: Db, next: Db, batch: seq<Claimed>, now: nat, world: World, attempt: nat, ops: seq<Op>,
                         d: Delivered)
    requires AnswersFit(world, |batch|) && world.answer(attempt).TransientFailure?
    requires AreBatchOps(ops, batch, world.recordedAt(attempt)) && IsBatchResult(db, batch, ops, next)
    requires forall i :: 0 <= i < |batch| ==> ops[i].change == RecordRetry(world.answer(attempt).why)
    requires IsSettledRowByRow(next, batch, now, world, attempt + 1, d)
    ensures IsSettledRowByRow(db, batch, now, world, attempt, d)
  {
    forall i | 0 <= i < |batch|
      ensures IsRowSettled(db.events[batch[i].eventId], d.db.events[batch[i].eventId], world, attempt, d.requests,
                           FinalChange(world.answer(d.requests), batch, i, d.requests), now)
    {
      assert AfterRetries(db.events[batch[i].eventId], world, attempt, d.requests)
             == AfterRetries(next.events[batch[i].eventId], world, attempt + 1, d.requests);
    }
  }

  lemma RetryKeepsOwned(db: Db, next: Db, batch: seq<Claimed>, ops: seq<Op>, now: nat)
    requires IsOwned(db, batch) && AreBatchOps(ops, batch, now) && IsBatchResult(db, batch, ops, next)
    requires forall i :: 0 <= i < |batch| ==> ops[i].change.RecordRetry?
    ensures IsOwned(next, batch)
  {
    forall i | 0 <= i < |batch| ensures next.Has(batch[i].eventId, Uploading) {
      assert Changed(db.events[batch[i].eventId], ops[i].change, ops[i].at) == Some(next.events[batch[i].eventId]);
    }
  }

  /** One recorded retry: the transaction commits, and the batch is owned as before. */
  lemma RetryIsRecorded(db: Db, batch: seq<Claimed>, why: string, at: nat)
    requires IsOwned(db, batch)
    ensures var ops := RetryOps(db, batch, why, at);
            && AreBatchOps(ops, batch, at) && (forall i :: 0 <= i < |batch| ==> ops[i].change == RecordRetry(why))
            && Run(db, ops).Some? && IsBatchResult(db, batch, ops, Run(db, ops).value)
            && IsOwned(Run(db, ops).value, batch)
  {
    RetryOpsOfOwned(db, batch, why, at);
    OwnedBatchRuns(db, batch, RetryOps(db, batch, why, at), at);
    RetryKeepsOwned(db, Run(db, RetryOps(db, batch, why, at)).value, batch, RetryOps(db, batch, why, at), at);
  }

  lemma AnswerSettles(db: Db, batch: seq<Claimed>, now: nat, world: World, attempt: nat, maxAttempts: nat)
    requires IsOwned(db, batch) && AnswersFit(world, |batch|)
    requires world.answer(attempt).TransientFailure? ==> attempt >= maxAttempts || world.late(attempt)
    ensures var d := Deliver(db, batch, now, world, attempt, maxAttempts);
            IsSettledRowByRow(db, batch, now, world, attempt, d) && d.requests == attempt
  {
    match world.answer(attempt) {
      case Rows(rows) =>
        ApplyOpsOfBatch(batch, rows, now);
        TallyCounts(batch, rows, now);
        LastAttemptSettles(db, batch, now, world, attempt, ApplyOps(batch, rows, now), Tally(batch, rows));
      case PermanentFailure(why) =>
        VerdictSettles(db, batch, now, world, attempt, Permanent, PermanentRequest(why), why);
      case TransientFailure(why) =>
        VerdictSettles(db, batch, now, world, attempt, Poison, PoisonRequest(why, attempt), why);
    }
  }

  /** An owned batch is always settled, row by row, within the permitted number of requests. */
  lemma {:induction false} OwnedBatchIsSettled(
    db: Db, batch: seq<Claimed>, now: nat, world: World, attempt: nat, maxAttempts: nat)
    requires IsOwned(db, batch) && AnswersFit(world, |batch|)
    ensures IsSettledRowByRow(db, batch, now, world, attempt, Deliver(db, batch, now, world, attempt, maxAttempts))
    ensures attempt <= maxAttempts ==> Deliver(db, batch, now, world, attempt, maxAttempts).requests <= maxAttempts
    decreases maxAttempts - attempt
  {
    if world.answer(attempt).TransientFailure? && attempt < maxAttempts && !world.late(attempt) {
      var why, at := world.answer(attempt).why, world.recordedAt(attempt);
      RetryIsRecorded(db, batch, why, at);
      var next := Run(db, RetryOps(db, batch, why, at)).value;
      OwnedBatchIsSettled(next, batch, now, world, attempt + 1, maxAttempts);
      RetryThenSettled(db, next, batch, now, world, attempt, RetryOps(db, batch, why, at),
                       Deliver(next, batch, now, world, attempt + 1, maxAttempts));
    } else {
      AnswerSettles(db, batch, now, world, attempt, maxAttempts);
    }
  }

  /** The two log lines of one recorded retry. */
  function RetryLines(world: World, k: nat): seq<LogEntry> {
    var cause := match world.answer(k) case TransientFailure(why) => why case _ => "";
    [LogEntry(Some(Uploading), FailedRetryable, Some(TransientRequest(cause)), world.recordedAt(k)),
     LogEntry(Some(FailedRetryable), Uploading, None, world.recordedAt(k))]
  }

  function AllRetryLines(world: World, first: nat, last: nat): seq<LogEntry>
    requires first <= last
    decreases last - first
  {
    if first == last then [] else RetryLines(world, first) + AllRetryLines(world, first + 1, last)
  }

  /** Retries leave the row in UPLOADING with one pair of lines and one attempt each, and nothing else. */
  lemma {:induction false} RetriesAddPairs(e: Event, world: World, first: nat, last: nat)
    requires first <= last && e.status == Uploading
    ensures var after := AfterRetries(e, world, first, last);
            && after.status == Uploading
            && after.log == e.log + AllRetryLines(world, first, last)
            && |after.log| == |e.log| + 2 * (last - first)
            && after.attemptCount == e.attemptCount + (last - first)
            && after.facts == e.facts && after.digests == e.digests
    decreases last - first
  {
    if first < last {
      var cause := match world.answer(first) case TransientFailure(why) => why case _ => "";
      var next := Changed(e, RecordRetry(cause), world.recordedAt(first)).value;
      assert next.log == e.log + RetryLines(world, first);
      RetriesAddPairs(next, world, first + 1, last);
    }
  }

  /** The status in which a final change leaves a row. */
  function FinalStatus(change: Change): EventStatus {
    match change
    case MarkUploaded => Uploaded
    case MarkRetryable(_) => FailedRetryable
    case _ => DeadLettered
  }

  /** A row before its batch was sent and after it was settled in `requests` requests. */
  predicate IsExactLog(before: Event, after: Event, world: World, requests: nat, final: Change)
    requires requests >= 1
  {
    && |after.log| == |before.log| + 2 * (requests - 1) + 1
    && after.log[..|after.log| - 1] == before.log + AllRetryLines(world, 1, requests)
    && after.log[|after.log| - 1].from == Some(Uploading)
    && after.log[|after.log| - 1].to == after.status == FinalStatus(final)
    && after.attemptCount == before.attemptCount + (requests - 1)
  }

  lemma ExactLogOfRow(before: Event, after: Event, world: World, requests: nat, final: Change, now: nat)
    requires before.status == Uploading && requests >= 1 && IsUploadChange(final) && !final.RecordRetry?
    requires Changed(AfterRetries(before, world, 1, requests), final, now) == Some(after)
    ensures IsExactLog(before, after, world, requests, final)
  {
    RetriesAddPairs(before, world, 1, requests);
    var middle := AfterRetries(before, world, 1, requests);
    assert after.log[..|after.log| - 1] == middle.log;
  }

  /**
   * The log of each row of an owned batch grows by one (FAILED_RETRYABLE, UPLOADING) pair per request
   * but the last, then by one final line; the attempt count grows by the number of those pairs.
   */
  lemma BatchLogsAreExact(db: Db, batch: seq<Claimed>, now: nat, world: World, maxAttempts: nat, i: nat)
    requires IsOwned(db, batch) && AnswersFit(world, |batch|) && i < |batch| && maxAttempts >= 1
    ensures var d := Deliver(db, batch, now, world, 1, maxAttempts);
            && d.Settled? && 1 <= d.requests <= maxAttempts && batch[i].eventId in d.db.events
            && batch[i].eventId in db.events
            && IsExactLog(db.events[batch[i].eventId], d.db.events[batch[i].eventId], world, d.requests,
                          FinalChange(world.answer(d.requests), batch, i, d.requests))
  {
    OwnedBatchIsSettled(db, batch, now, world, 1, maxAttempts);
    var d := Deliver(db, batch, now, world, 1, maxAttempts);
    assert db.Has(batch[i].eventId, Uploading);
    ExactLogOfRow(db.events[batch[i].eventId], d.db.events[batch[i].eventId], world, d.requests,
                  FinalChange(world.answer(d.requests), batch, i, d.requests), now);
  }
}

/**
 * What the platform's answer about a row, or the verdict on its whole request, leaves in the tables: said of
 * the answer itself, for the row, its dead-letter record and the report.
 */
module Outcomes {
  import opened Wrappers
  import opened Status
  import opened Model
  import opened Ledger
  import opened Transactions
  import opened Delivery

  // --- Records ---

  /** Since `from` was the length of the table, this dead-lettering of the event was recorded, completely. */
  predicate HasRecord(db: Db, from: nat, id: EventId, failureClass: FailureClass, reason: Reason, code: string,
                      payload: ConversionRow, at: nat)
  {
    id in db.events
    && exists k :: from <= k < |db.dead|
         && db.dead[k].eventId == id && db.dead[k].source == db.events[id].facts.source
         && db.dead[k].failureClass == failureClass && db.dead[k].reason == reason
         && db.dead[k].errorCode == Some(code) && db.dead[k].payload == payload
         && db.dead[k].deadLetteredAt == at && db.dead[k].history == History(db.events[id].log)
         && db.dead[k].replayedAt == None && db.dead[k].replayCount == 0
  }

  lemma {:induction false} UpdatesAddRecords(db: Db, ops: seq<Op>)
    requires AreUpdates(ops) && HaveDistinctTargets(ops) && Run(db, ops).Some?
    ensures var after := Run(db, ops).value;
            && db.dead <= after.dead && |after.dead| == |db.dead| + |Burials(ops)|
            && (forall id :: id in db.events && !IsTarget(ops, id) ==>
                  id in after.events && after.events[id] == db.events[id])
    decreases |ops|
  {
    hide Burials, Changed;
    if ops == [] {
      NothingCounts(ops);
    } else {
      TailTargets(ops);
      var next := Step(db, ops[0]).value;
      UpdatesAddRecords(next, ops[1..]);
      FirstBurials(ops);
      var after := Run(db, ops).value;
      assert db.dead <= next.dead <= after.dead;
    }
  }

  lemma FirstBurials(ops: seq<Op>)
    requires AreUpdates(ops) && ops != []
    ensures |Burials(ops)| == |Burials(ops[1..])| + if ops[0].change.DeadLetterRow? then 1 else 0
    decreases |ops|
  {
    hide Burials;
    LastCallCounts(ops);
    if |ops| == 1 {
      assert ops[..0] == ops[1..] == [];
    } else {
      FirstBurials(ops[..|ops| - 1]);
      LastCallCounts(ops[1..]);
      assert ops[..|ops| - 1][1..] == ops[1..][..|ops| - 2];
    }
  }

  /** Every dead-lettering of a list of updates is recorded, with the row as it is in the end. */
  lemma {:induction false} BurialIsRecorded(db: Db, ops: seq<Op>, i: nat)
    requires AreUpdates(ops) && HaveDistinctTargets(ops) && Run(db, ops).Some?
    requires i < |ops| && ops[i].change.DeadLetterRow?
    ensures ops[i].id in Run(db, ops).value.events
    ensures var after := Run(db, ops).value;
            exists k :: |db.dead| <= k < |after.dead|
              && after.dead[k] == RecordOf(ops[i].id, after.events[ops[i].id], ops[i].change, ops[i].at)
    decreases |ops|
  {
    hide Changed, RecordOf;
    TailTargets(ops);
    var next, after := Step(db, ops[0]).value, Run(db, ops).value;
    UpdatesAddRecords(next, ops[1..]);
    if i == 0 {
      var k := |db.dead|;
      assert next.dead[k] == RecordOf(ops[0].id, next.events[ops[0].id], ops[0].change, ops[0].at);
      assert after.dead[k] == next.dead[k] && after.events[ops[0].id] == next.events[ops[0].id];
    } else {
      BurialIsRecorded(next, ops[1..], i - 1);
      assert ops[1..][i - 1] == ops[i];
      assert |db.dead| <= |next.dead|;
    }
  }

  lemma RecordedAs(db: Db, ops: seq<Op>, i: nat, code: string)
    requires AreUpdates(ops) && HaveDistinctTargets(ops) && Run(db, ops).Some?
    requires i < |ops| && ops[i].change.DeadLetterRow? && ops[i].change.errorCode == Some(code)
    ensures HasRecord(Run(db, ops).value, |db.dead|, ops[i].id, ops[i].change.failureClass, ops[i].change.reason, code,
                      ops[i].change.payload, ops[i].at)
  {
    hide Run;
    BurialIsRecorded(db, ops, i);
    var after := Run(db, ops).value;
    var k :| |db.dead| <= k < |after.dead|
             && after.dead[k] == RecordOf(ops[i].id, after.events[ops[i].id], ops[i].change, ops[i].at);
  }

  /** Only dead-letterings are recorded: as many records are added as the report counts. */
  predicate AddsRecords(before: Db, after: Db, count: nat) {
    before.dead <= after.dead && |after.dead| == |before.dead| + count
  }

  // --- One settled row ---

  /** The code a refusal is filed under. */
  function CodeOf(row: RowResult): string {
    match row.errorCode
    case Some(code) => if code == "" then "UNKNOWN" else code
    case None => "UNKNOWN"
  }

  /**
   * What the answer about one row leads to: UPLOADED when the platform took it; FAILED_RETRYABLE when it came
   * too early; and for every other code DEAD_LETTERED on its own, recorded as partial with the row that was sent.
   */
  predicate IsAnswered(db: Db, from: nat, claimed: Claimed, row: RowResult, at: nat) {
    && claimed.eventId in db.events
    && var e := db.events[claimed.eventId];
    if row.ok then e.status == Uploaded && e.statusReason == None
    else if CodeOf(row) == "TOO_RECENT_CONVERSION"
    then e.status == FailedRetryable && e.statusReason == Some(RetryableRow("TOO_RECENT_CONVERSION"))
    else
      && e.status == DeadLettered && e.statusReason == Some(PermanentRow(CodeOf(row)))
      && HasRecord(db, from, claimed.eventId, Partial, PermanentRow(CodeOf(row)), CodeOf(row), claimed.conversion, at)
  }

  lemma ChangeOfAnswer(claimed: Claimed, row: RowResult)
    ensures RowChange(claimed, row)
            == if row.ok then MarkUploaded
               else if CodeOf(row) == "TOO_RECENT_CONVERSION" then MarkRetryable("TOO_RECENT_CONVERSION")
               else DeadLetterRow(Partial, PermanentRow(CodeOf(row)), Some(CodeOf(row)), claimed.conversion)
  {
  }

  lemma OwnedOpsAreDistinct(db: Db, batch: seq<Claimed>, ops: seq<Op>, now: nat)
    requires IsOwned(db, batch) && AreBatchOps(ops, batch, now)
    ensures AreUpdates(ops) && HaveDistinctTargets(ops)
  {
  }

  lemma RowIsAnswered(db: Db, ops: seq<Op>, after: Db, i: nat, claimed: Claimed, row: RowResult, now: nat)
    requires AreUpdates(ops) && HaveDistinctTargets(ops) && Run(db, ops) == Some(after) && i < |ops|
    requires ops[i] == Update(claimed.eventId, RowChange(claimed, row), now)
    requires claimed.eventId in db.events && claimed.eventId in after.events
    requires Changed(db.events[claimed.eventId], ops[i].change, now) == Some(after.events[claimed.eventId])
    ensures IsAnswered(after, |db.dead|, claimed, row, now)
  {
    ChangeOfAnswer(claimed, row);
    hide CodeOf, RowChange, HasRecord, Run, HaveDistinctTargets;
    if ops[i].change.DeadLetterRow? {
      RecordedAs(db, ops, i, CodeOf(row));
    }
  }

  /** Settling an owned batch answers every row on its own, records exactly the buried ones, and counts them all. */
  lemma EveryRowIsAnswered(db: Db, batch: seq<Claimed>, rows: seq<RowResult>, now: nat)
    requires IsOwned(db, batch) && |rows| == |batch|
    ensures var tx := ApplyTx(db, batch, rows, now);
            && tx.Some? && IsReportOf(tx.value.1, tx.value.0, batch)
            && AddsRecords(db, tx.value.0, tx.value.1.deadLettered)
            && (forall i :: 0 <= i < |batch| ==> IsAnswered(tx.value.0, |db.dead|, batch[i], rows[i], now))
  {
    hide Burials, Uploads, Postponements, RowChange, IsAnswered, IsReportOf, Changed, Tally, HaveDistinctTargets,
         IsOwned;
    var ops := ApplyOps(batch, rows, now);
    ApplyOpsOfBatch(batch, rows, now);
    OwnedBatchRuns(db, batch, ops, now);
    OwnedOpsAreDistinct(db, batch, ops, now);
    TallyCounts(batch, rows, now);
    UpdatesAddRecords(db, ops);
    var after := Run(db, ops).value;
    forall i | 0 <= i < |ops| ensures !ops[i].change.RecordRetry? {
      RowChangeKinds(batch[i], rows[i]);
    }
    CallsMakeStatuses(db, batch, ops, now, after, Tally(batch, rows));
    forall i | 0 <= i < |batch| ensures IsAnswered(after, |db.dead|, batch[i], rows[i], now) {
      RowIsAnswered(db, ops, after, i, batch[i], rows[i], now);
    }
  }

  // --- A verdict on the whole request ---

  /** Dead-lettered over the whole request, and recorded so with the row that was sent. */
  predicate IsCondemned(db: Db, from: nat, claimed: Claimed, failureClass: FailureClass, reason: Reason, code: string,
                        at: nat)
  {
    db.Has(claimed.eventId, DeadLettered) && db.events[claimed.eventId].statusReason == Some(reason)
    && HasRecord(db, from, claimed.eventId, failureClass, reason, code, claimed.conversion, at)
  }

  lemma RowIsCondemned(db: Db, ops: seq<Op>, after: Db, i: nat, claimed: Claimed, failureClass: FailureClass,
                       reason: Reason, code: string, now: nat)
    requires AreUpdates(ops) && HaveDistinctTargets(ops) && Run(db, ops) == Some(after) && i < |ops|
    requires ops[i]
             == Update(claimed.eventId, DeadLetterRow(failureClass, reason, Some(code), claimed.conversion), now)
    requires claimed.eventId in db.events && claimed.eventId in after.events
    requires Changed(db.events[claimed.eventId], ops[i].change, now) == Some(after.events[claimed.eventId])
    ensures IsCondemned(after, |db.dead|, claimed, failureClass, reason, code, now)
  {
    hide HasRecord, Run, HaveDistinctTargets;
    RecordedAs(db, ops, i, code);
  }

  lemma EveryRowIsCondemned(db: Db, batch: seq<Claimed>, failureClass: FailureClass, reason: Reason, code: string,
                            now: nat, requests: nat)
    requires IsOwned(db, batch)
    ensures var d := DeadLetterAll(db, batch, failureClass, reason, code, now, requests);
            && d.Settled? && d.report == CycleReport(0, 0, |batch|) && d.requests == requests
            && AddsRecords(db, d.db, |batch|)
            && (forall i :: 0 <= i < |batch| ==>
                  IsCondemned(d.db, |db.dead|, batch[i], failureClass, reason, code, now))
  {
    hide Burials, Uploads, Postponements, IsCondemned, Changed, HaveDistinctTargets, IsOwned, DeadLetterAllOps;
    var ops := DeadLetterAllOps(db, batch, failureClass, reason, code, now);
    DeadLetterAllOpsOfOwned(db, batch, failureClass, reason, code, now);
    OwnedBatchRuns(db, batch, ops, now);
    OwnedOpsAreDistinct(db, batch, ops, now);
    AllBuriedCounts(ops);
    UpdatesAddRecords(db, ops);
    var after := Run(db, ops).value;
    forall i | 0 <= i < |batch|
      ensures IsCondemned(after, |db.dead|, batch[i], failureClass, reason, code, now)
    {
      assert ops[i].change == DeadLetterRow(failureClass, reason, Some(code), batch[i].conversion);
      RowIsCondemned(db, ops, after, i, batch[i], failureClass, reason, code, now);
    }
  }

  // --- A whole delivery ---

  /** Row i after the delivery, by what its last request brought. */
  predicate IsConcluded(db: Db, batch: seq<Claimed>, i: nat, answer: Answer, requests: nat, from: nat, at: nat)
    requires i < |batch|
  {
    match answer
    case Rows(rows) => |rows| == |batch| && IsAnswered(db, from, batch[i], rows[i], at)
    case PermanentFailure(why) => IsCondemned(db, from, batch[i], Permanent, PermanentRequest(why), why, at)
    case TransientFailure(why) => IsCondemned(db, from, batch[i], Poison, PoisonRequest(why, requests), why, at)
  }

  /** The delivery is settled as its last request says, row by row, and nothing else is recorded or counted. */
  ghost predicate IsConclusion(db: Db, batch: seq<Claimed>, now: nat, world: World, d: Delivered) {
    && d.Settled? && AddsRecords(db, d.db, d.report.deadLettered)
    && (!world.answer(d.requests).Rows? ==> d.report == CycleReport(0, 0, |batch|))
    && (forall i :: 0 <= i < |batch| ==>
          IsConcluded(d.db, batch, i, world.answer(d.requests), d.requests, |db.dead|, now))
  }

  lemma LastRequestConcludes(db: Db, batch: seq<Claimed>, now: nat, world: World, attempt: nat, maxAttempts: nat)
    requires IsOwned(db, batch) && AnswersFit(world, |batch|)
    requires world.answer(attempt).TransientFailure? ==> attempt >= maxAttempts || world.late(attempt)
    ensures IsConclusion(db, batch, now, world, Deliver(db, batch, now, world, attempt, maxAttempts))
    ensures Deliver(db, batch, now, world, attempt, maxAttempts).requests == attempt
  {
    hide ApplyTx, DeadLetterAll, IsAnswered, IsCondemned;
    match world.answer(attempt) {
      case Rows(rows) => EveryRowIsAnswered(db, batch, rows, now);
      case PermanentFailure(why) =>
        EveryRowIsCondemned(db, batch, Permanent, PermanentRequest(why), why, now, attempt);
      case TransientFailure(why) =>
        EveryRowIsCondemned(db, batch, Poison, PoisonRequest(why, attempt), why, now, attempt);
    }
  }

  lemma RetriesAreNotRecorded(db: Db, batch: seq<Claimed>, why: string, at: nat)
    requires IsOwned(db, batch)
    ensures Run(db, RetryOps(db, batch, why, at)).Some? && IsOwned(Run(db, RetryOps(db, batch, why, at)).value, batch)
    ensures Run(db, RetryOps(db, batch, why, at)).value.dead == db.dead
  {
    var ops := RetryOps(db, batch, why, at);
    RetryIsRecorded(db, batch, why, at);
    OwnedOpsAreDistinct(db, batch, ops, at);
    UpdatesAddRecords(db, ops);
    assert Burials(ops) == {};
  }

  /**
   * Whatever its requests meet, an owned batch ends as its last one says: an answered row by its own answer,
   * a refused or given-up request with all of its rows, under the class, reason and code of that verdict; the
   * records added are exactly those of the buried rows, and the report counts the rows by what became of them.
   */
  lemma {:induction false} DeliveryConcludes(db: Db, batch: seq<Claimed>, now: nat, world: World, attempt: nat,
                                             maxAttempts: nat)
    requires IsOwned(db, batch) && AnswersFit(world, |batch|)
    ensures var d := Deliver(db, batch, now, world, attempt, maxAttempts);
            IsConclusion(db, batch, now, world, d) && IsReportOf(d.report, d.db, batch)
    decreases maxAttempts - attempt
  {
    hide IsReportOf, IsConcluded, IsSettledRowByRow, RetryOps;
    if world.answer(attempt).TransientFailure? && attempt < maxAttempts && !world.late(attempt) {
      var why, at := world.answer(attempt).why, world.recordedAt(attempt);
      RetriesAreNotRecorded(db, batch, why, at);
      DeliveryConcludes(Run(db, RetryOps(db, batch, why, at)).value, batch, now, world, attempt + 1, maxAttempts);
    } else {
      LastRequestConcludes(db, batch, now, world, attempt, maxAttempts);
      ReportIsRight(db, batch, now, world, attempt, maxAttempts);
    }
  }

  lemma ReportIsRight(db: Db, batch: seq<Claimed>, now: nat, world: World, attempt: nat, maxAttempts: nat)
    requires IsOwned(db, batch) && AnswersFit(world, |batch|)
    ensures var d := Deliver(db, batch, now, world, attempt, maxAttempts);
            d.Settled? && IsReportOf(d.report, d.db, batch)
  {
    hide Deliver, IsReportOf;
    OwnedBatchIsSettled(db, batch, now, world, attempt, maxAttempts);
  }
}

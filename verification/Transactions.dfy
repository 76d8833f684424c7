/** The transactions of the upload stage, as lists of ledger calls, and what each list does row by row. */
module Transactions {
  import opened Wrappers
  import opened Model
  import opened ConversionRows
  import opened Classifier
  import opened Ledger

  // --- A list of updates to distinct rows ---

  predicate AreUpdates(ops: seq<Op>) {
    forall i :: 0 <= i < |ops| ==> ops[i].Update?
  }

  predicate HaveDistinctTargets(ops: seq<Op>)
    requires AreUpdates(ops)
  {
    forall i, j :: 0 <= i < j < |ops| ==> ops[i].id != ops[j].id
  }

  predicate IsTarget(ops: seq<Op>, id: EventId) {
    exists i :: 0 <= i < |ops| && ops[i].Update? && ops[i].id == id
  }

  /** The row a single update would leave, or None when it raises. */
  function UpdatedRow(db: Db, op: Op): Option<Event>
    requires op.Update?
  {
    if op.id in db.events then Changed(db.events[op.id], op.change, op.at) else None
  }

  /** The tables after every update of a batch took effect on the row it found at the start. */
  predicate IsRowByRow(db: Db, ops: seq<Op>, after: Db)
    requires AreUpdates(ops)
  {
    && after.events.Keys == db.events.Keys
    && (forall i :: 0 <= i < |ops|
          ==> ops[i].id in after.events && UpdatedRow(db, ops[i]) == Some(after.events[ops[i].id]))
    && (forall id :: id in db.events && !IsTarget(ops, id) ==> after.events[id] == db.events[id])
  }

  lemma TailTargets(ops: seq<Op>)
    requires AreUpdates(ops) && HaveDistinctTargets(ops) && ops != []
    ensures AreUpdates(ops[1..]) && HaveDistinctTargets(ops[1..]) && !IsTarget(ops[1..], ops[0].id)
    ensures forall id :: IsTarget(ops, id) <==> id == ops[0].id || IsTarget(ops[1..], id)
  {
    forall id | IsTarget(ops, id) && id != ops[0].id ensures IsTarget(ops[1..], id) {
      var i :| 0 <= i < |ops| && ops[i].Update? && ops[i].id == id;
      assert ops[1..][i - 1] == ops[i];
    }
    forall id | IsTarget(ops[1..], id) ensures IsTarget(ops, id) {
      var i :| 0 <= i < |ops[1..]| && ops[1..][i].Update? && ops[1..][i].id == id;
      assert ops[i + 1] == ops[1..][i];
    }
  }

  /**
   * Updates of distinct rows do not get in each other's way: together they raise exactly when one of
   * them would have raised alone, and otherwise every row ends as its own update leaves it.
   */
  lemma {:induction false} BatchRun(db: Db, ops: seq<Op>)
    requires AreUpdates(ops) && HaveDistinctTargets(ops)
    ensures Run(db, ops).Some? <==> forall i :: 0 <= i < |ops| ==> UpdatedRow(db, ops[i]).Some?
    ensures Run(db, ops).Some? ==> IsRowByRow(db, ops, Run(db, ops).value)
    decreases |ops|
  {
    if ops != [] {
      TailTargets(ops);
      if UpdatedRow(db, ops[0]).Some? {
        var next := Step(db, ops[0]).value;
        BatchRun(next, ops[1..]);
        BatchRunTail(db, ops, next);
      } else {
        assert Run(db, ops).None?;
      }
    }
  }

  lemma BatchRunTail(db: Db, ops: seq<Op>, next: Db)
    requires AreUpdates(ops) && HaveDistinctTargets(ops) && ops != [] && !IsTarget(ops[1..], ops[0].id)
    requires UpdatedRow(db, ops[0]).Some? && Step(db, ops[0]) == Some(next)
    requires forall id :: IsTarget(ops, id) <==> id == ops[0].id || IsTarget(ops[1..], id)
    requires Run(next, ops[1..]).Some? <==> forall i :: 0 <= i < |ops[1..]| ==> UpdatedRow(next, ops[1..][i]).Some?
    requires Run(next, ops[1..]).Some? ==> IsRowByRow(next, ops[1..], Run(next, ops[1..]).value)
    ensures Run(db, ops).Some? <==> forall i :: 0 <= i < |ops| ==> UpdatedRow(db, ops[i]).Some?
    ensures Run(db, ops).Some? ==> IsRowByRow(db, ops, Run(db, ops).value)
  {
    var rest := ops[1..];
    assert forall i :: 0 <= i < |rest| ==> UpdatedRow(next, rest[i]) == UpdatedRow(db, rest[i]);
    assert forall i :: 1 <= i < |ops| ==> ops[i] == rest[i - 1];
    if Run(db, ops).Some? {
      var after := Run(db, ops).value;
      assert after.events[ops[0].id] == next.events[ops[0].id];
      forall i | 0 <= i < |ops|
        ensures ops[i].id in after.events && UpdatedRow(db, ops[i]) == Some(after.events[ops[i].id])
      {
        if i > 0 {
          assert UpdatedRow(next, rest[i - 1]) == Some(after.events[rest[i - 1].id]);
        }
      }
    }
  }

  // --- Claiming ---

  function ClaimOps(ids: seq<EventId>, now: nat): (ops: seq<Op>)
    ensures |ops| == |ids| && forall i :: 0 <= i < |ops| ==> ops[i] == Update(ids[i], Claim, now)
  {
    seq(|ids|, i requires 0 <= i < |ids| => Update(ids[i], Claim, now))
  }

  predicate IsOverCeiling(db: Db, id: EventId, maxRowAttempts: nat) {
    id in db.events && db.events[id].attemptCount > maxRowAttempts
  }

  predicate HaveConversions(db: Db, ids: seq<EventId>) {
    forall i :: 0 <= i < |ids| ==> ids[i] in db.events && db.events[ids[i]].facts.conversion.Some?
  }

  /** The dead-lettering of a row whose claim went over the attempt ceiling. */
  function CeilingChange(id: EventId, e: Event, customerId: string): Change
    requires e.facts.conversion.Some? && e.attemptCount >= 1
  {
    DeadLetterRow(Poison, AttemptCeiling(e.attemptCount - 1), Some("row_attempt_ceiling"),
                  ConversionOf(id, e, customerId))
  }

  /** Dead-lettering of the freshly claimed rows that were already attempted too often. */
  function CeilingOps(db: Db, ids: seq<EventId>, now: nat, maxRowAttempts: nat, customerId: string): seq<Op>
    requires HaveConversions(db, ids)
  {
    if ids == [] then []
    else
      var last := |ids| - 1;
      var before := CeilingOps(db, ids[..last], now, maxRowAttempts, customerId);
      var e := db.events[ids[last]];
      if e.attemptCount > maxRowAttempts then before + [Update(ids[last], CeilingChange(ids[last], e, customerId), now)]
      else before
  }

  /** The rows that are uploaded, with the request row built inside the transaction. */
  function ClaimedOf(db: Db, ids: seq<EventId>, maxRowAttempts: nat, customerId: string): seq<Claimed>
    requires HaveConversions(db, ids)
  {
    if ids == [] then []
    else
      var last := |ids| - 1;
      var before := ClaimedOf(db, ids[..last], maxRowAttempts, customerId);
      var e := db.events[ids[last]];
      if e.attemptCount > maxRowAttempts then before
      else before + [Claimed(ids[last], e.attemptCount, ConversionOf(ids[last], e, customerId))]
  }

  /** The claim transaction over the rows the query selected; None when it raises. */
  function ClaimTx(db: Db, ids: seq<EventId>, now: nat, maxRowAttempts: nat, customerId: string)
    : Option<(Db, seq<Claimed>)>
  {
    match Run(db, ClaimOps(ids, now))
    case None => None
    case Some(mid) =>
      if !HaveConversions(mid, ids) then None else
      match Run(mid, CeilingOps(mid, ids, now, maxRowAttempts, customerId))
      case None => None
      case Some(after) => Some((after, ClaimedOf(mid, ids, maxRowAttempts, customerId)))
  }

  // --- Settling a batch ---

  function Ids(batch: seq<Claimed>): (ids: seq<EventId>)
    ensures |ids| == |batch| && forall i :: 0 <= i < |ids| ==> ids[i] == batch[i].eventId
  {
    seq(|batch|, i requires 0 <= i < |batch| => batch[i].eventId)
  }

  /** The listed events that exist, in order. */
  function Load(db: Db, ids: seq<EventId>): (found: seq<EventId>)
    ensures (forall i :: 0 <= i < |ids| ==> ids[i] in db.events) ==> found == ids
  {
    if ids == [] then []
    else (if ids[0] in db.events then [ids[0]] else []) + Load(db, ids[1..])
  }

  /** The keys of a dictionary built from the list: first occurrences, in order. */
  function FirstOccurrences(ids: seq<EventId>): (keys: seq<EventId>)
    ensures (forall i, j :: 0 <= i < j < |ids| ==> ids[i] != ids[j]) ==> keys == ids
    ensures forall id :: id in keys <==> id in ids
  {
    if ids == [] then []
    else
      var last := |ids| - 1;
      var before := FirstOccurrences(ids[..last]);
      assert ids == ids[..last] + [ids[last]];
      if ids[last] in ids[..last] then before else before + [ids[last]]
  }

  /** The batch entry a dictionary keyed by event id holds: the last of that id. */
  function EntryOf(batch: seq<Claimed>, id: EventId): (c: Claimed)
    requires id in Ids(batch)
    ensures c in batch && c.eventId == id
  {
    var last := |batch| - 1;
    if batch[last].eventId == id then batch[last]
    else
      assert Ids(batch)[..last] == Ids(batch[..last]);
      assert Ids(batch) == Ids(batch)[..last] + [id] || id in Ids(batch)[..last] by {
        var i :| 0 <= i < |batch| && Ids(batch)[i] == id;
        assert i < last;
        assert Ids(batch)[..last][i] == id;
      }
      EntryOf(batch[..last], id)
  }

  lemma {:induction false} EntryIsLast(batch: seq<Claimed>, id: EventId) returns (i: nat)
    requires id in Ids(batch)
    ensures i < |batch| && batch[i] == EntryOf(batch, id)
    ensures forall j :: i < j < |batch| ==> batch[j].eventId != id
    decreases |batch|
  {
    i := |batch| - 1;
    if batch[i].eventId != id {
      var k :| 0 <= k < |batch| && Ids(batch)[k] == id;
      assert Ids(batch[..i])[k] == id;
      i := EntryIsLast(batch[..i], id);
    }
  }

  function UpdateAll(ids: seq<EventId>, change: Change, now: nat): (ops: seq<Op>)
    ensures |ops| == |ids| && forall i :: 0 <= i < |ops| ==> ops[i] == Update(ids[i], change, now)
  {
    seq(|ids|, i requires 0 <= i < |ids| => Update(ids[i], change, now))
  }

  /** Between two attempts: every row of the batch shows the failure and the new attempt. */
  function RetryOps(db: Db, batch: seq<Claimed>, cause: string, now: nat): seq<Op> {
    UpdateAll(Load(db, Ids(batch)), RecordRetry(cause), now)
  }

  /** What the platform's answer about one row does to that row. */
  function RowChange(claimed: Claimed, row: RowResult): Change {
    if row.ok then MarkUploaded
    else
      var code := if row.errorCode.Some? && row.errorCode.value != "" then row.errorCode.value else "UNKNOWN";
      if ClassifyRowError(code) == Transient then MarkRetryable(code)
      else DeadLetterRow(Partial, PermanentRow(code), Some(code), claimed.conversion)
  }

  function ApplyOps(batch: seq<Claimed>, rows: seq<RowResult>, now: nat): (ops: seq<Op>)
    requires |batch| == |rows|
    ensures |ops| == |batch|
    ensures forall i :: 0 <= i < |ops| ==> ops[i] == Update(batch[i].eventId, RowChange(batch[i], rows[i]), now)
  {
    seq(|batch|, i requires 0 <= i < |batch| => Update(batch[i].eventId, RowChange(batch[i], rows[i]), now))
  }

  /** The report of one settled batch. */
  function Tally(batch: seq<Claimed>, rows: seq<RowResult>): (r: CycleReport)
    requires |batch| == |rows|
    ensures r.uploaded + r.retryLater + r.deadLettered == |batch|
  {
    if batch == [] then CycleReport(0, 0, 0)
    else
      var last := |batch| - 1;
      var before := Tally(batch[..last], rows[..last]);
      match RowChange(batch[last], rows[last])
      case MarkUploaded => before.(uploaded := before.uploaded + 1)
      case MarkRetryable(_) => before.(retryLater := before.retryLater + 1)
      case _ => before.(deadLettered := before.deadLettered + 1)
  }

  /** The settling transaction; results and rows must pair up one to one. */
  function ApplyTx(db: Db, batch: seq<Claimed>, rows: seq<RowResult>, now: nat): Option<(Db, CycleReport)> {
    if |rows| != |batch| then None else
    match Run(db, ApplyOps(batch, rows, now))
    case None => None
    case Some(after) => Some((after, Tally(batch, rows)))
  }

  /** A whole-request verdict: every row of the batch is dead-lettered with its own request row. */
  function DeadLetterAllOps(db: Db, batch: seq<Claimed>, failureClass: FailureClass, reason: Reason, code: string,
                            now: nat): (ops: seq<Op>)
    ensures AreUpdates(ops)
  {
    var ids := Load(db, FirstOccurrences(Ids(batch)));
    LoadedAreListed(db, FirstOccurrences(Ids(batch)));
    seq(|ids|, i requires 0 <= i < |ids| =>
      Update(ids[i], DeadLetterRow(failureClass, reason, Some(code), EntryOf(batch, ids[i]).conversion), now))
  }

  lemma {:induction false} LoadedAreListed(db: Db, ids: seq<EventId>)
    ensures forall id :: id in Load(db, ids) ==> id in ids
    ensures forall i :: 0 <= i < |Load(db, ids)| ==> Load(db, ids)[i] in ids
  {
    if ids != [] {
      LoadedAreListed(db, ids[1..]);
    }
  }
}

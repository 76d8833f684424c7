/** The upload process: claim, batch, send with retries, settle. One object per running uploader. */
module Uploader {
  import opened Wrappers
  import opened Status
  import opened Model
  import opened ConversionRows
  import opened Classifier
  import opened Ledger
  import opened Transactions
  import opened Delivery
  import opened Outcomes
  import opened Store
  import opened Batcher

  datatype UploaderConfig = UploaderConfig(
    customerId: string, retryAfter: nat, staleAfter: nat, maxRowAttempts: nat, maxAttempts: nat)

  /** A cycle reports, or an exception ends the process. */
  datatype CycleOutcome = Reported(report: CycleReport) | CycleRaised

  const NOTHING_DONE: CycleReport := CycleReport(0, 0, 0)

  /** The tables and the report after the batch, if there is one, was delivered. */
  function AfterSending(db: Db, batch: seq<Claimed>, now: nat, world: World, maxAttempts: nat): (Db, CycleOutcome) {
    if batch == [] then (db, Reported(NOTHING_DONE))
    else
      var d := Deliver(db, batch, now, world, 1, maxAttempts);
      (d.db, if d.Settled? then Reported(d.report) else CycleRaised)
  }

  /** The tables and the claimed rows after the claim transaction; no rows and the same tables when it raises. */
  function AfterClaim(db: Db, ids: seq<EventId>, now: nat, config: UploaderConfig): (Db, Option<seq<Claimed>>) {
    match ClaimTx(db, ids, now, config.maxRowAttempts, config.customerId)
    case Some((after, rows)) => (after, Some(rows))
    case None => (db, None)
  }

  /** The tables and the report after a cycle that claimed `ids` and sent `batch`. */
  function AfterCycle(db: Db, ids: seq<EventId>, batch: seq<Claimed>, now: nat, world: World, config: UploaderConfig)
    : (Db, CycleOutcome)
  {
    var (mid, claimed) := AfterClaim(db, ids, now, config);
    if claimed.None? then (mid, CycleRaised) else AfterSending(mid, batch, now, world, config.maxAttempts)
  }

  /** The claimed rows join the waiting ones; all of them leave as one batch when it is full or due. */
  function Batched(waiting: BatchState<Claimed>, claimed: seq<Claimed>, now: nat, maxSize: nat, maxWait: nat)
    : (BatchState<Claimed>, Option<seq<Claimed>>)
  {
    var items := waiting.items + claimed;
    var next := BatchState(items, if waiting.oldestAt.Some? || claimed == [] then waiting.oldestAt else Some(now));
    if |items| >= maxSize || next.IsDue(now, maxWait) then (BatchState([], None), Some(items)) else (next, None)
  }

  /** What waited and what was claimed is sent as one batch, leaving none, or all of it waits. */
  predicate NothingDropped(before: seq<Claimed>, claimed: seq<Claimed>, sent: seq<Claimed>, after: seq<Claimed>,
                           maxSize: nat)
  {
    if sent == [] then after == before + claimed
    else sent == before + claimed && after == [] && |sent| <= maxSize
  }

  lemma StillAccounted(sentBefore: seq<Claimed>, before: seq<Claimed>, claimed: seq<Claimed>, sent: seq<Claimed>,
                       after: seq<Claimed>, maxSize: nat)
    requires NothingDropped(before, claimed, sent, after, maxSize)
    ensures (sentBefore + sent) + after == (sentBefore + before) + claimed
  {
  }

  /** Every claimed row is in UPLOADING, and a dead-letter call on it is legal. */
  lemma ClaimedRowsUpload(db: Db, now: nat, limit: nat, config: UploaderConfig, locked: set<EventId>, ids: seq<EventId>)
    requires IsSelection(db.events, now, limit, config.retryAfter, config.staleAfter, locked, ids)
    requires Run(db, ClaimOps(ids, now)).Some?
    ensures forall i :: 0 <= i < |ids| ==> Run(db, ClaimOps(ids, now)).value.Has(ids[i], Uploading)
  {
    SelectionIsLegal(db, now, limit, config.retryAfter, config.staleAfter, locked, ids);
    ClaimedUpload(db, ids, now, Run(db, ClaimOps(ids, now)).value);
  }

  lemma ClaimedUpload(db: Db, ids: seq<EventId>, now: nat, after: Db)
    requires IsRowByRow(db, ClaimOps(ids, now), after)
    ensures forall i :: 0 <= i < |ids| ==> after.Has(ids[i], Uploading)
  {
    var ops := ClaimOps(ids, now);
    forall i | 0 <= i < |ids| ensures after.Has(ids[i], Uploading) {
      assert UpdatedRow(db, ops[i]) == Some(after.events[ops[i].id]);
    }
  }

  /** The claimed rows handled so far: those over the ceiling are buried, the others become uploads. */
  ghost predicate IsHandled(mid: Db, rows: seq<EventId>, now: nat, config: UploaderConfig, current: Db,
                            uploads: seq<Claimed>)
  {
    && HaveConversions(mid, rows)
    && Run(mid, CeilingOps(mid, rows, now, config.maxRowAttempts, config.customerId)) == Some(current)
    && uploads == ClaimedOf(mid, rows, config.maxRowAttempts, config.customerId)
  }

  /** The rows are all as `mid` has them. */
  predicate AreUntouched(mid: Db, rows: seq<EventId>, events: map<EventId, Event>) {
    forall j :: 0 <= j < |rows| ==> rows[j] in events && rows[j] in mid.events && events[rows[j]] == mid.events[rows[j]]
  }

  lemma CeilingOpsNext(mid: Db, done: seq<EventId>, id: EventId, now: nat, maxRowAttempts: nat, customerId: string)
    requires HaveConversions(mid, done) && id in mid.events && mid.events[id].facts.conversion.Some?
    ensures HaveConversions(mid, done + [id])
    ensures CeilingOps(mid, done + [id], now, maxRowAttempts, customerId)
            == CeilingOps(mid, done, now, maxRowAttempts, customerId)
               + if IsOverCeiling(mid, id, maxRowAttempts)
                 then [Update(id, CeilingChange(id, mid.events[id], customerId), now)] else []
  {
    assert (done + [id])[..|done|] == done;
  }

  lemma ClaimedOfNext(mid: Db, done: seq<EventId>, id: EventId, maxRowAttempts: nat, customerId: string)
    requires HaveConversions(mid, done) && id in mid.events && mid.events[id].facts.conversion.Some?
    ensures HaveConversions(mid, done + [id])
    ensures ClaimedOf(mid, done + [id], maxRowAttempts, customerId)
            == ClaimedOf(mid, done, maxRowAttempts, customerId)
               + if IsOverCeiling(mid, id, maxRowAttempts) then []
                 else [Claimed(id, mid.events[id].attemptCount, ConversionOf(id, mid.events[id], customerId))]
  {
    assert (done + [id])[..|done|] == done;
  }

  lemma RunThenStep(db: Db, ops: seq<Op>, op: Op, mid: Db, next: Db)
    requires Run(db, ops) == Some(mid) && Step(mid, op) == Some(next)
    ensures Run(db, ops + [op]) == Some(next)
  {
    RunConcat(db, ops, [op]);
    assert [op][1..] == [];
    assert Run(mid, [op]) == Step(mid, op);
  }

  lemma BuriedNext(mid: Db, done: seq<EventId>, id: EventId, now: nat, config: UploaderConfig, before: Db, next: Db,
                   uploads: seq<Claimed>)
    requires IsHandled(mid, done, now, config, before, uploads) && IsOverCeiling(mid, id, config.maxRowAttempts)
    requires mid.events[id].facts.conversion.Some?
    requires Step(before, Update(id, CeilingChange(id, mid.events[id], config.customerId), now)) == Some(next)
    ensures IsHandled(mid, done + [id], now, config, next, uploads)
  {
    CeilingOpsNext(mid, done, id, now, config.maxRowAttempts, config.customerId);
    ClaimedOfNext(mid, done, id, config.maxRowAttempts, config.customerId);
    RunThenStep(mid, CeilingOps(mid, done, now, config.maxRowAttempts, config.customerId),
                Update(id, CeilingChange(id, mid.events[id], config.customerId), now), before, next);
  }

  lemma KeptNext(mid: Db, done: seq<EventId>, id: EventId, now: nat, config: UploaderConfig, current: Db,
                 uploads: seq<Claimed>)
    requires IsHandled(mid, done, now, config, current, uploads) && !IsOverCeiling(mid, id, config.maxRowAttempts)
    requires id in mid.events && mid.events[id].facts.conversion.Some?
    ensures IsHandled(mid, done + [id], now, config, current,
                      uploads + [Claimed(id, mid.events[id].attemptCount,
                                         ConversionOf(id, mid.events[id], config.customerId))])
  {
    CeilingOpsNext(mid, done, id, now, config.maxRowAttempts, config.customerId);
    ClaimedOfNext(mid, done, id, config.maxRowAttempts, config.customerId);
  }

  class Uploader {
    const store: LedgerStore
    const batcher: Batcher<Claimed>
    const config: UploaderConfig
    ghost var claimedSoFar: seq<Claimed>
    ghost var sentSoFar: seq<Claimed>

    /** Nothing claimed is lost or reordered: it was sent, or it waits in the batcher. */
    ghost predicate Valid()
      reads this, batcher
    {
      batcher.Valid() && sentSoFar + batcher.items == claimedSoFar
    }

    constructor (store: LedgerStore, batchSize: nat, batchWait: nat, config: UploaderConfig)
      requires batchSize >= 1
      ensures Valid() && this.store == store && this.config == config && fresh(batcher)
      ensures batcher.maxSize == batchSize && batcher.maxWait == batchWait
      ensures claimedSoFar == [] && sentSoFar == [] && batcher.items == []
    {
      this.store, this.config := store, config;
      batcher := new Batcher<Claimed>(batchSize, batchWait);
      claimedSoFar, sentSoFar := [], [];
    }

    /** The claim transaction: None when it raises, which leaves the tables as they were. */
    method ClaimRows(now: nat, limit: nat, locked: set<EventId>)
      returns (ghost ids: seq<EventId>, claimed: Option<seq<Claimed>>)
      modifies store
      ensures IsSelection(old(store.events), now, limit, config.retryAfter, config.staleAfter, locked, ids)
      ensures (store.View(), claimed) == AfterClaim(old(store.View()), ids, now, config)
    {
      var before := store.View();
      var rows := store.ClaimForUpload(now, limit, config.retryAfter, config.staleAfter, locked);
      ids := rows;
      ClaimedRowsUpload(before, now, limit, config, locked, rows);
      claimed := KeepOrBury(rows, now);
      if claimed.None? {
        store.Rollback(before);
      }
    }

    /** Of the rows just moved to UPLOADING, keep those within the ceiling and dead-letter the others. */
    method KeepOrBury(rows: seq<EventId>, now: nat) returns (claimed: Option<seq<Claimed>>)
      requires forall i, j :: 0 <= i < j < |rows| ==> rows[i] != rows[j]
      requires forall i :: 0 <= i < |rows| ==> store.View().Has(rows[i], Uploading)
      modifies store
      ensures claimed.Some? <==> HaveConversions(old(store.View()), rows)
      ensures claimed.Some? ==> IsHandled(old(store.View()), rows, now, config, store.View(), claimed.value)
    {
      ghost var mid := store.View();
      var uploads: seq<Claimed> := [];
      for i := 0 to |rows|
        invariant IsHandled(mid, rows[..i], now, config, store.View(), uploads)
        invariant AreUntouched(mid, rows[i..], store.events)
      {
        var id := rows[i];
        assert rows[i..][0] == id && rows[i..][1..] == rows[i + 1..] && rows[..i + 1] == rows[..i] + [id];
        if store.events[id].facts.conversion.None? {
          return None;
        }
        assert mid.Has(id, Uploading);
        uploads := HandleRow(mid, rows[..i], id, now, uploads);
      }
      assert rows[..|rows|] == rows;
      claimed := Some(uploads);
    }

    method HandleRow(ghost mid: Db, ghost done: seq<EventId>, id: EventId, now: nat, uploads: seq<Claimed>)
      returns (next: seq<Claimed>)
      requires IsHandled(mid, done, now, config, store.View(), uploads)
      requires AreUntouched(mid, [id], store.events) && mid.Has(id, Uploading) && mid.events[id].facts.conversion.Some?
      modifies store
      ensures IsHandled(mid, done + [id], now, config, store.View(), next)
      ensures forall other :: other != id && other in old(store.events) ==>
                other in store.events && store.events[other] == old(store.events)[other]
    {
      assert [id][0] == id;
      var e := store.events[id];
      if e.attemptCount > config.maxRowAttempts {
        BuryRow(mid, done, id, now, uploads);
        next := uploads;
      } else {
        KeptNext(mid, done, id, now, config, store.View(), uploads);
        next := uploads + [Claimed(id, e.attemptCount, ConversionOf(id, e, config.customerId))];
      }
    }

    method BuryRow(ghost mid: Db, ghost done: seq<EventId>, id: EventId, now: nat, ghost uploads: seq<Claimed>)
      requires IsHandled(mid, done, now, config, store.View(), uploads) && IsOverCeiling(mid, id, config.maxRowAttempts)
      requires mid.Has(id, Uploading) && id in store.events && store.events[id] == mid.events[id]
      requires mid.events[id].facts.conversion.Some?
      modifies store
      ensures IsHandled(mid, done + [id], now, config, store.View(), uploads)
      ensures forall other :: other != id && other in old(store.events) ==>
                other in store.events && store.events[other] == old(store.events)[other]
    {
      ghost var before := store.View();
      var ok := Bury(id, store.events[id], now);
      BuriedNext(mid, done, id, now, config, before, store.View(), uploads);
    }

    method Bury(id: EventId, e: Event, now: nat) returns (ok: bool)
      requires id in store.events && e.facts.conversion.Some? && e.attemptCount >= 1
      modifies store
      ensures ok <==> Step(old(store.View()), Update(id, CeilingChange(id, e, config.customerId), now)).Some?
      ensures ok
        ==> Step(old(store.View()), Update(id, CeilingChange(id, e, config.customerId), now)) == Some(store.View())
    {
      ok := store.DeadLetterEvent(id, Poison, AttemptCeiling(e.attemptCount - 1), Some("row_attempt_ceiling"),
                                  ConversionOf(id, e, config.customerId), now);
    }

    /** The settling transaction over one result per row. */
    method ApplyResult(batch: seq<Claimed>, rows: seq<RowResult>, now: nat) returns (report: Option<CycleReport>)
      modifies store
      ensures match ApplyTx(old(store.View()), batch, rows, now)
              case Some((after, r)) => store.View() == after && report == Some(r)
              case None => store.View() == old(store.View()) && report == None
      ensures IsOwned(old(store.View()), batch) && |rows| == |batch| ==>
                && report.Some? && IsReportOf(report.value, store.View(), batch)
                && AddsRecords(old(store.View()), store.View(), report.value.deadLettered)
                && forall i :: 0 <= i < |batch| ==>
                     IsAnswered(store.View(), |old(store.dead)|, batch[i], rows[i], now)
    {
      hide IsOwned, IsReportOf, IsAnswered, AddsRecords, RowChange, Changed, RecordOf;
      if |rows| != |batch| {
        return None;
      }
      var before := store.View();
      ghost var ops := ApplyOps(batch, rows, now);
      var counts := NOTHING_DONE;
      for i := 0 to |batch|
        invariant Run(store.View(), ops[i..]) == Run(before, ops)
        invariant counts == Tally(batch[..i], rows[..i])
      {
        assert ops[i..][1..] == ops[i + 1..] && ops[i..][0] == ops[i];
        assert batch[..i + 1][..i] == batch[..i] && rows[..i + 1][..i] == rows[..i];
        var ok := false;
        if batch[i].eventId in store.events {
          ok, counts := ApplyRow(batch[i], rows[i], now, counts);
        }
        if !ok {
          store.Rollback(before);
          AnswersWhenOwned(before, batch, rows, now);
          return None;
        }
      }
      assert batch[..|batch|] == batch && rows[..|rows|] == rows;
      report := Some(counts);
      AnswersWhenOwned(before, batch, rows, now);
    }

    /** One row: uploaded, back to the pool, or dead-lettered on its own. */
    method ApplyRow(claimed: Claimed, row: RowResult, now: nat, counts: CycleReport)
      returns (ok: bool, next: CycleReport)
      requires claimed.eventId in store.events
      modifies store
      ensures ok <==> Step(old(store.View()), Update(claimed.eventId, RowChange(claimed, row), now)).Some?
      ensures ok
        ==> Step(old(store.View()), Update(claimed.eventId, RowChange(claimed, row), now)) == Some(store.View())
      ensures ok ==> next == match RowChange(claimed, row)
                             case MarkUploaded => counts.(uploaded := counts.uploaded + 1)
                             case MarkRetryable(_) => counts.(retryLater := counts.retryLater + 1)
                             case _ => counts.(deadLettered := counts.deadLettered + 1)
    {
      var id := claimed.eventId;
      if row.ok {
        ok := store.MoveTo(id, Uploaded, None, now);
        return ok, counts.(uploaded := counts.uploaded + 1);
      }
      var code := if row.errorCode.Some? && row.errorCode.value != "" then row.errorCode.value else "UNKNOWN";
      if ClassifyRowError(code) == Transient {
        ok := store.MoveTo(id, FailedRetryable, Some(RetryableRow(code)), now);
        next := counts.(retryLater := counts.retryLater + 1);
      } else {
        ok := store.DeadLetterEvent(id, Partial, PermanentRow(code), Some(code), claimed.conversion, now);
        next := counts.(deadLettered := counts.deadLettered + 1);
      }
    }

    /** The transaction that records one failed attempt on every row of the batch. */
    method RecordRetries(batch: seq<Claimed>, cause: string, now: nat) returns (ok: bool)
      modifies store
      ensures match Run(old(store.View()), RetryOps(old(store.View()), batch, cause, now))
              case Some(after) => ok && store.View() == after
              case None => !ok && store.View() == old(store.View())
    {
      var before := store.View();
      var ids := Load(before, Ids(batch));
      LoadedExist(before, Ids(batch));
      ghost var ops := RetryOps(before, batch, cause, now);
      for i := 0 to |ids|
        invariant Run(store.View(), ops[i..]) == Run(before, ops)
        invariant forall id :: id in before.events ==> id in store.events
      {
        assert ops[i..][1..] == ops[i + 1..] && ops[i..][0] == ops[i];
        ok := store.RecordRetryAttempt(ids[i], cause, now);
        if !ok {
          store.Rollback(before);
          return;
        }
      }
      ok := true;
    }

    /** A verdict on the whole request: every row dead-lettered, each with its own request row. */
    method DeadLetterBatch(batch: seq<Claimed>, failureClass: FailureClass, reason: Reason, code: string, now: nat,
                           requests: nat) returns (d: Delivered)
      modifies store
      ensures d == DeadLetterAll(old(store.View()), batch, failureClass, reason, code, now, requests)
      ensures store.View() == d.db
      ensures d.Settled? ==> d.report.uploaded == d.report.retryLater == 0 && d.report.deadLettered == |batch|
      ensures d.Raised? ==> store.View() == old(store.View())
      ensures IsOwned(old(store.View()), batch) ==>
                && d.Settled? && AddsRecords(old(store.View()), store.View(), |batch|)
                && forall i :: 0 <= i < |batch| ==>
                     IsCondemned(store.View(), |old(store.dead)|, batch[i], failureClass, reason, code, now)
    {
      hide IsOwned, IsCondemned, AddsRecords;
      if IsOwned(store.View(), batch) {
        EveryRowIsCondemned(store.View(), batch, failureClass, reason, code, now, requests);
      }
      var before := store.View();
      var ops := DeadLetterAllOps(before, batch, failureClass, reason, code, now);
      LoadedExist(before, FirstOccurrences(Ids(batch)));
      for i := 0 to |ops|
        invariant Run(store.View(), ops[i..]) == Run(before, ops)
        invariant forall id :: id in before.events ==> id in store.events
      {
        assert ops[i..][1..] == ops[i + 1..] && ops[i..][0] == ops[i];
        var ok := store.DeadLetterEvent(ops[i].id, failureClass, reason, Some(code), ops[i].change.payload, now);
        if !ok {
          store.Rollback(before);
          return Raised(before, requests);
        }
      }
      d := Settled(store.View(), CycleReport(0, 0, |batch|), requests);
    }

    /** Send the batch until it is answered or the attempts run out, then settle it. */
    method UploadBatch(batch: seq<Claimed>, now: nat, world: World) returns (d: Delivered)
      modifies store
      ensures d == Deliver(old(store.View()), batch, now, world, 1, config.maxAttempts)
      ensures store.View() == d.db
      ensures IsOwned(old(store.View()), batch) && AnswersFit(world, |batch|) ==>
                IsConclusion(old(store.View()), batch, now, world, d) && IsReportOf(d.report, store.View(), batch)
    {
      hide IsConclusion, IsReportOf, IsOwned, AnswersFit, ApplyTx, DeadLetterAll;
      if IsOwned(store.View(), batch) && AnswersFit(world, |batch|) {
        DeliveryConcludes(store.View(), batch, now, world, 1, config.maxAttempts);
      }
      var attempt := 1;
      while true
        invariant Deliver(store.View(), batch, now, world, attempt, config.maxAttempts)
                  == Deliver(old(store.View()), batch, now, world, 1, config.maxAttempts)
        decreases config.maxAttempts - attempt
      {
        match world.answer(attempt) {
          case Rows(rows) =>
            var report := ApplyResult(batch, rows, now);
            return if report.Some? then Settled(store.View(), report.value, attempt) else Raised(store.View(), attempt);
          case PermanentFailure(why) =>
            d := DeadLetterBatch(batch, Permanent, PermanentRequest(why), why, now, attempt);
            return;
          case TransientFailure(why) =>
            if attempt >= config.maxAttempts || world.late(attempt) {
              d := DeadLetterBatch(batch, Poison, PoisonRequest(why, attempt), why, now, attempt);
              return;
            }
            var ok := RecordRetries(batch, why, world.recordedAt(attempt));
            if !ok {
              return Raised(store.View(), attempt);
            }
            attempt := attempt + 1;
        }
      }
    }

    /** The claimed items go into the batcher one by one; the last of them may fill it. */
    method AddAll(claimed: seq<Claimed>, now: nat) returns (full: Option<seq<Claimed>>)
      requires Valid() && |batcher.items| + |claimed| <= batcher.maxSize
      modifies batcher, this`claimedSoFar
      ensures batcher.Valid() && claimedSoFar == old(claimedSoFar) + claimed
      ensures full.Some? <==> |old(batcher.items)| + |claimed| == batcher.maxSize
      ensures full.Some? ==> full.value == old(batcher.items) + claimed && batcher.View() == BatchState([], None)
      ensures full.None? ==>
                batcher.View() == BatchState(old(batcher.items) + claimed,
                                             if old(batcher.oldestAt).Some? || claimed == [] then old(batcher.oldestAt)
                                             else Some(now))
    {
      full := None;
      for i := 0 to |claimed|
        invariant batcher.Valid() && claimedSoFar == old(claimedSoFar)
        invariant full.Some? ==> i == |claimed| && full.value == old(batcher.items) + claimed[..i]
                                 && batcher.View() == BatchState([], None)
        invariant full.None? ==>
                    batcher.View() == BatchState(old(batcher.items) + claimed[..i],
                                                 if old(batcher.oldestAt).Some? || i == 0 then old(batcher.oldestAt)
                                                 else Some(now))
        invariant full.Some? <==> |old(batcher.items)| + i == batcher.maxSize
      {
        var added := batcher.Add(claimed[i], now);
        assert claimed[..i + 1] == claimed[..i] + [claimed[i]];
        if added.Some? {
          full := added;
        }
      }
      assert claimed[..|claimed|] == claimed;
      claimedSoFar := claimedSoFar + claimed;
    }

    /**
     * The first half of a cycle: claim what there is room for and batch it. The batch that is due is
     * everything that was waiting plus everything just claimed, in that order; when none is due, all of
     * it waits, and none of it has waited long enough.
     */
    method ClaimAndBatch(now: nat, locked: set<EventId>)
      returns (ghost ids: seq<EventId>, claimed: Option<seq<Claimed>>, batch: Option<seq<Claimed>>)
      requires Valid()
      modifies this`claimedSoFar, batcher, store
      ensures IsSelection(old(store.events), now, batcher.maxSize - |old(batcher.items)|, config.retryAfter,
                          config.staleAfter, locked, ids)
      ensures (store.View(), claimed) == AfterClaim(old(store.View()), ids, now, config)
      ensures batcher.Valid() && claimedSoFar == old(claimedSoFar) + claimed.GetOr([]) && sentSoFar == old(sentSoFar)
      ensures batch.Some? ==> claimed.Some? && batch.value != []
      ensures NothingDropped(old(batcher.items), claimed.GetOr([]), batch.GetOr([]), batcher.items, batcher.maxSize)
      ensures claimed.Some? ==>
                (batcher.View(), batch)
                == Batched(old(batcher.View()), claimed.value, now, batcher.maxSize, batcher.maxWait)
      ensures claimed.Some? ==> !batcher.View().IsDue(now, batcher.maxWait)
    {
      var rows: Option<seq<Claimed>>;
      ids, rows := ClaimRows(now, batcher.maxSize - |batcher.items|, locked);
      claimed, batch := rows, None;
      if rows.Some? {
        ClaimedAtMost(old(store.View()), ids, now, config);
        batch := AddAll(rows.value, now);
        if batch.None? {
          batch := batcher.FlushIfDue(now);
        }
      }
    }

    /** One cycle: claim, batch, and upload the batch if one is full or due. */
    method RunOnce(now: nat, locked: set<EventId>, world: World)
      returns (outcome: CycleOutcome, ghost ids: seq<EventId>, ghost claimed: seq<Claimed>, ghost sent: seq<Claimed>)
      requires Valid()
      modifies this`claimedSoFar, this`sentSoFar, batcher, store
      ensures Valid()
      ensures IsSelection(old(store.events), now, batcher.maxSize - |old(batcher.items)|, config.retryAfter,
                          config.staleAfter, locked, ids)
      ensures claimedSoFar == old(claimedSoFar) + claimed && sentSoFar == old(sentSoFar) + sent
      ensures NothingDropped(old(batcher.items), claimed, sent, batcher.items, batcher.maxSize)
      ensures outcome.Reported? ==> !batcher.View().IsDue(now, batcher.maxWait)
      ensures claimed == AfterClaim(old(store.View()), ids, now, config).1.GetOr([])
      ensures (store.View(), outcome) == AfterCycle(old(store.View()), ids, sent, now, world, config)
    {
      var rows, batch;
      ids, rows, batch := ClaimAndBatch(now, locked);
      claimed, sent := rows.GetOr([]), batch.GetOr([]);
      outcome := SendDue(rows.Some?, batch, now, world);
      StillAccounted(old(sentSoFar), old(batcher.items), claimed, sent, batcher.items, batcher.maxSize);
    }

    /** The second half of a cycle: nothing after a failed claim, nothing when no batch is due. */
    method SendDue(claimOk: bool, batch: Option<seq<Claimed>>, now: nat, world: World) returns (outcome: CycleOutcome)
      requires batch.Some? ==> batch.value != []
      modifies this`sentSoFar, store
      ensures sentSoFar == old(sentSoFar) + if claimOk then batch.GetOr([]) else []
      ensures unchanged(batcher) && claimedSoFar == old(claimedSoFar)
      ensures !claimOk ==> outcome == CycleRaised && store.View() == old(store.View())
      ensures claimOk ==>
                (store.View(), outcome)
                == AfterSending(old(store.View()), batch.GetOr([]), now, world, config.maxAttempts)
    {
      if !claimOk {
        outcome := CycleRaised;
      } else if batch.None? {
        outcome := Reported(NOTHING_DONE);
      } else {
        sentSoFar := sentSoFar + batch.value;
        var d := UploadBatch(batch.value, now, world);
        outcome := if d.Settled? then Reported(d.report) else CycleRaised;
      }
    }
  }

  /** What settling an owned batch does; of any other batch nothing is said. */
  lemma AnswersWhenOwned(db: Db, batch: seq<Claimed>, rows: seq<RowResult>, now: nat)
    ensures IsOwned(db, batch) && |rows| == |batch| ==>
              var tx := ApplyTx(db, batch, rows, now);
              && tx.Some? && IsReportOf(tx.value.1, tx.value.0, batch)
              && AddsRecords(db, tx.value.0, tx.value.1.deadLettered)
              && (forall i :: 0 <= i < |batch| ==> IsAnswered(tx.value.0, |db.dead|, batch[i], rows[i], now))
  {
    hide IsOwned, IsReportOf, IsAnswered, AddsRecords, ApplyTx;
    if IsOwned(db, batch) && |rows| == |batch| {
      EveryRowIsAnswered(db, batch, rows, now);
    }
  }

  lemma {:induction false} LoadedExist(db: Db, ids: seq<EventId>)
    ensures forall i :: 0 <= i < |Load(db, ids)| ==> Load(db, ids)[i] in db.events
  {
    if ids != [] {
      LoadedExist(db, ids[1..]);
    }
  }

  lemma {:induction false} ClaimedCount(db: Db, ids: seq<EventId>, maxRowAttempts: nat, customerId: string)
    requires HaveConversions(db, ids)
    ensures |ClaimedOf(db, ids, maxRowAttempts, customerId)| <= |ids|
  {
    if ids != [] {
      ClaimedCount(db, ids[..|ids| - 1], maxRowAttempts, customerId);
    }
  }

  lemma ClaimedAtMost(db: Db, ids: seq<EventId>, now: nat, config: UploaderConfig)
    ensures var tx := ClaimTx(db, ids, now, config.maxRowAttempts, config.customerId);
            tx.Some? ==> |tx.value.1| <= |ids|
  {
    if ClaimTx(db, ids, now, config.maxRowAttempts, config.customerId).Some? {
      ClaimedCount(Run(db, ClaimOps(ids, now)).value, ids, config.maxRowAttempts, config.customerId);
    }
  }
}

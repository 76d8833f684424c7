/**
 * The time lease on claimed rows: when it keeps two uploaders, or two copies in one uploader, away from
 * the same row, when it does not, and what follows where it does.
 */
module LeaseExclusivity {
  import opened Wrappers
  import opened Status
  import opened Model
  import opened Ledger
  import opened LedgerInvariants
  import opened Transactions
  import opened Delivery
  import opened Store
  import opened Processor
  import opened Pipeline
  import opened AuditTrail
  import opened Provenance

  // --- The property ---

  /** The uploader has the row in its batcher or in the batch it is sending. */
  predicate Holds(up: UploaderState, id: EventId) {
    InBatch(up.Holding(), id)
  }

  ghost predicate AreApart(uploaders: seq<UploaderState>) {
    forall u, v, id :: 0 <= u < |uploaders| && 0 <= v < |uploaders| && u != v && Holds(uploaders[u], id) ==>
      !Holds(uploaders[v], id)
  }

  /** Every held row is in UPLOADING and held once: by one uploader, in one place. */
  ghost predicate IsExclusive(db: Db, uploaders: seq<UploaderState>) {
    && (forall u :: 0 <= u < |uploaders| ==> IsOwned(db, uploaders[u].Holding()))
    && AreApart(uploaders)
  }

  ghost predicate IsHeld(uploaders: seq<UploaderState>, id: EventId) {
    exists u :: 0 <= u < |uploaders| && Holds(uploaders[u], id)
  }

  /** A claim of a row that some uploader still holds. */
  ghost predicate TakesHeldRow(s: System, a: Action) {
    a.Upload? && a.step.Cycle? && exists id :: id in a.step.ids && IsHeld(s.uploaders, id)
  }

  // --- One uploader's step ---

  lemma InBatchConcat(a: seq<Claimed>, b: seq<Claimed>, id: EventId)
    ensures InBatch(a + b, id) <==> InBatch(a, id) || InBatch(b, id)
  {
    if InBatch(a, id) {
      var i :| 0 <= i < |a| && a[i].eventId == id;
      assert (a + b)[i] == a[i];
    }
    if InBatch(b, id) {
      var i :| 0 <= i < |b| && b[i].eventId == id;
      assert (a + b)[|a| + i] == b[i];
    }
  }

  lemma OwnedParts(db: Db, a: seq<Claimed>, b: seq<Claimed>)
    requires IsOwned(db, a + b)
    ensures IsOwned(db, a) && IsOwned(db, b)
    ensures forall id :: InBatch(a, id) ==> !InBatch(b, id)
  {
    var all := a + b;
    assert forall i :: 0 <= i < |a| ==> all[i] == a[i];
    assert forall i :: 0 <= i < |b| ==> all[|a| + i] == b[i];
    forall id | InBatch(a, id) ensures !InBatch(b, id) {
      var i :| 0 <= i < |a| && a[i].eventId == id;
      forall j | 0 <= j < |b| ensures b[j].eventId != id {
        assert all[|a| + j] == b[j];
      }
    }
  }

  lemma OwnedTogether(db: Db, a: seq<Claimed>, b: seq<Claimed>)
    requires IsOwned(db, a) && IsOwned(db, b) && forall id :: InBatch(a, id) ==> !InBatch(b, id)
    ensures IsOwned(db, a + b)
  {
    forall i, j | 0 <= i < |a| && 0 <= j < |b| ensures a[i].eventId != b[j].eventId {
      assert InBatch(a, a[i].eventId);
    }
  }

  /** The rows stay owned while each of them stays in UPLOADING. */
  lemma StillOwned(db: Db, after: Db, batch: seq<Claimed>)
    requires IsOwned(db, batch)
    requires forall id :: InBatch(batch, id) ==> after.Has(id, Uploading)
    ensures IsOwned(after, batch)
  {
    forall i | 0 <= i < |batch| ensures after.Has(batch[i].eventId, Uploading) {
      assert InBatch(batch, batch[i].eventId);
    }
  }

  lemma ReplaceKeepsExclusive(db: Db, after: Db, uploaders: seq<UploaderState>, u: nat, up: UploaderState)
    requires IsExclusive(db, uploaders) && u < |uploaders| && IsOwned(after, up.Holding())
    requires forall v, id :: 0 <= v < |uploaders| && v != u && Holds(uploaders[v], id) ==>
               !Holds(up, id) && after.Has(id, Uploading)
    ensures IsExclusive(after, uploaders[u := up])
  {
    var next := uploaders[u := up];
    forall v | 0 <= v < |next| ensures IsOwned(after, next[v].Holding()) {
      if v != u {
        forall id | InBatch(uploaders[v].Holding(), id) ensures after.Has(id, Uploading) {
          assert Holds(uploaders[v], id);
        }
        StillOwned(db, after, uploaders[v].Holding());
      }
    }
  }

  /** Between two claims an uploader changes exactly the rows of its batch, or none. */
  lemma UploadOpsOfOwned(cfg: Config, s: System, up: UploaderState, step: UploadStep) returns (at: nat)
    requires CanUpload(cfg, s, up, step) && !step.Cycle? && IsOwned(s.db, up.Batch())
    ensures var ops := UploadOps(cfg, s, up, step);
            && (if step.Retry? || step.GiveUp? || step.Settle? then AreBatchOps(ops, up.Batch(), at) else ops == [])
            && (step.Retry? ==> forall i :: 0 <= i < |ops| ==> ops[i].Update? && ops[i].change.RecordRetry?)
            && ((step.GiveUp? || step.Settle?)
                ==> forall i :: 0 <= i < |ops| ==> ops[i].Update? && !ops[i].change.RecordRetry?)
  {
    at := 0;
    match step {
      case Retry =>
        at := s.clock;
        RetryOpsOfOwned(s.db, up.flight.batch, up.flight.why, s.clock);
      case GiveUp =>
        at := up.flight.startedAt;
        match up.flight {
          case Failed(batch, attempt, startedAt, why) =>
            DeadLetterAllOpsOfOwned(s.db, batch, Poison, PoisonRequest(why, attempt), why, startedAt);
          case Refused(batch, _, startedAt, why) =>
            DeadLetterAllOpsOfOwned(s.db, batch, Permanent, PermanentRequest(why), why, startedAt);
          case _ =>
        }
      case Settle =>
        at := up.flight.startedAt;
        ApplyOpsOfBatch(up.flight.batch, up.flight.rows, up.flight.startedAt);
      case _ =>
    }
  }

  /** What a step of one uploader must do to the tables and to what it holds. */
  ghost predicate IsOwnedStep(db: Db, up: UploaderState, after: Db, next: UploaderState) {
    && after.events.Keys == db.events.Keys
    && IsOwned(after, next.Holding())
    && (forall id :: Holds(next, id) ==> Holds(up, id))
    && (forall id :: id in db.events && !InBatch(up.Batch(), id) ==> after.events[id] == db.events[id])
  }

  /** The tables after one change to each row of the batch; what was waiting goes on waiting. */
  lemma BatchStepIsOwned(db: Db, up: UploaderState, ops: seq<Op>, at: nat, after: Db, next: UploaderState)
    requires IsOwned(db, up.waiting) && IsOwned(db, up.Batch()) && AreBatchOps(ops, up.Batch(), at)
    requires forall id :: InBatch(up.waiting, id) ==> !InBatch(up.Batch(), id)
    requires IsBatchResult(db, up.Batch(), ops, after)
    requires next.Holding() == up.waiting
             || (next.Holding() == up.waiting + up.Batch() && forall i :: 0 <= i < |ops| ==> ops[i].change.RecordRetry?)
    ensures IsOwnedStep(db, up, after, next)
  {
    forall id | InBatch(up.waiting, id) ensures after.Has(id, Uploading) {
      assert db.Has(id, Uploading);
    }
    StillOwned(db, after, up.waiting);
    if next.Holding() == up.waiting {
      forall id | Holds(next, id) ensures Holds(up, id) {
        InBatchConcat(up.waiting, up.Batch(), id);
      }
    } else {
      RetryKeepsOwned(db, after, up.Batch(), ops, at);
      OwnedTogether(after, up.waiting, up.Batch());
    }
  }

  /** The step runs, keeps what the uploader goes on holding in UPLOADING, and leaves every other row alone. */
  lemma OwnedStepRuns(cfg: Config, s: System, up: UploaderState, step: UploadStep)
    requires CanUpload(cfg, s, up, step) && !step.Cycle? && IsOwned(s.db, up.Holding())
    ensures Run(s.db, UploadOps(cfg, s, up, step)).Some?
    ensures IsOwnedStep(s.db, up, Run(s.db, UploadOps(cfg, s, up, step)).value, NextUploader(cfg, s, up, step))
  {
    OwnedParts(s.db, up.waiting, up.Batch());
    var at := UploadOpsOfOwned(cfg, s, up, step);
    var ops := UploadOps(cfg, s, up, step);
    HoldingAfter(cfg, s, up, step);
    if step.Retry? || step.GiveUp? || step.Settle? {
      OwnedBatchRuns(s.db, up.Batch(), ops, at);
      BatchStepIsOwned(s.db, up, ops, at, Run(s.db, ops).value, NextUploader(cfg, s, up, step));
    }
  }

  lemma HoldingAfter(cfg: Config, s: System, up: UploaderState, step: UploadStep)
    requires CanUpload(cfg, s, up, step) && !step.Cycle?
    ensures NextUploader(cfg, s, up, step).Holding()
            == if step.Crash? then [] else if step.GiveUp? || step.Settle? then up.waiting else up.Holding()
  {
  }

  lemma OwnedStepKeepsExclusive(cfg: Config, s: System, u: nat, step: UploadStep)
    requires IsExclusive(s.db, s.uploaders) && u < |s.uploaders| && CanUpload(cfg, s, s.uploaders[u], step)
             && !step.Cycle?
    ensures Run(s.db, UploadOps(cfg, s, s.uploaders[u], step)).Some?
    ensures var after := Run(s.db, UploadOps(cfg, s, s.uploaders[u], step)).value;
            IsExclusive(after, s.uploaders[u := NextUploader(cfg, s, s.uploaders[u], step)])
  {
    var up := s.uploaders[u];
    OwnedStepRuns(cfg, s, up, step);
    var after := Run(s.db, UploadOps(cfg, s, up, step)).value;
    var next := NextUploader(cfg, s, up, step);
    forall v, id | 0 <= v < |s.uploaders| && v != u && Holds(s.uploaders[v], id)
      ensures !Holds(next, id) && after.Has(id, Uploading)
    {
      assert !Holds(up, id);
      InBatchConcat(up.waiting, up.Batch(), id);
      assert s.db.Has(id, Uploading);
    }
    ReplaceKeepsExclusive(s.db, after, s.uploaders, u, next);
  }

  // --- The claim ---

  /** Updates of different listed rows over the ceiling, all of them. */
  ghost predicate BuriesOver(db: Db, ids: seq<EventId>, maxRowAttempts: nat, ops: seq<Op>) {
    && AreUpdates(ops) && HaveDistinctTargets(ops)
    && forall id :: IsTarget(ops, id) <==> id in ids && IsOverCeiling(db, id, maxRowAttempts)
  }

  lemma TargetsAppend(ops: seq<Op>, op: Op)
    requires AreUpdates(ops) && HaveDistinctTargets(ops) && op.Update? && !IsTarget(ops, op.id)
    ensures AreUpdates(ops + [op]) && HaveDistinctTargets(ops + [op])
    ensures forall id :: IsTarget(ops + [op], id) <==> IsTarget(ops, id) || id == op.id
  {
    forall id | IsTarget(ops, id) || id == op.id ensures IsTarget(ops + [op], id) {
      if IsTarget(ops, id) {
        var i :| 0 <= i < |ops| && ops[i].Update? && ops[i].id == id;
        assert (ops + [op])[i].id == id;
      } else {
        assert (ops + [op])[|ops|].id == id;
      }
    }
    forall id | IsTarget(ops + [op], id) && id != op.id ensures IsTarget(ops, id) {
      var i :| 0 <= i < |ops + [op]| && (ops + [op])[i].Update? && (ops + [op])[i].id == id;
      assert ops[i].id == id;
    }
  }

  lemma {:induction false} CeilingBuries(db: Db, ids: seq<EventId>, now: nat, maxRowAttempts: nat, customerId: string)
    requires HaveConversions(db, ids) && forall i, j :: 0 <= i < j < |ids| ==> ids[i] != ids[j]
    ensures BuriesOver(db, ids, maxRowAttempts, CeilingOps(db, ids, now, maxRowAttempts, customerId))
    decreases |ids|
  {
    if ids != [] {
      var last := |ids| - 1;
      var before := CeilingOps(db, ids[..last], now, maxRowAttempts, customerId);
      CeilingBuries(db, ids[..last], now, maxRowAttempts, customerId);
      assert ids == ids[..last] + [ids[last]] && ids[last] !in ids[..last];
      if IsOverCeiling(db, ids[last], maxRowAttempts) {
        TargetsAppend(before, Update(ids[last], CeilingChange(ids[last], db.events[ids[last]], customerId), now));
      }
    }
  }

  function EntryFor(db: Db, id: EventId, customerId: string): Claimed
    requires id in db.events && db.events[id].facts.conversion.Some?
  {
    Claimed(id, db.events[id].attemptCount, ConversionRows.ConversionOf(id, db.events[id], customerId))
  }

  /** A claimed entry is about one of the claimed ids, with the attempt count and request row of its row. */
  predicate IsClaimOf(db: Db, ids: seq<EventId>, c: Claimed, maxRowAttempts: nat, customerId: string) {
    && c.eventId in ids && c.eventId in db.events && !IsOverCeiling(db, c.eventId, maxRowAttempts)
    && db.events[c.eventId].facts.conversion.Some? && c == EntryFor(db, c.eventId, customerId)
  }

  /** The listed rows within the ceiling, each once, each with the request row of its own event. */
  ghost predicate KeepsWithin(db: Db, ids: seq<EventId>, maxRowAttempts: nat, customerId: string,
                              claimed: seq<Claimed>) {
    && (forall i :: 0 <= i < |claimed| ==> IsClaimOf(db, ids, claimed[i], maxRowAttempts, customerId))
    && (forall i, j :: 0 <= i < j < |claimed| ==> claimed[i].eventId != claimed[j].eventId)
    && (forall id :: id in ids && !IsOverCeiling(db, id, maxRowAttempts) ==> InBatch(claimed, id))
  }

  lemma KeepsAppend(db: Db, ids: seq<EventId>, maxRowAttempts: nat, customerId: string, claimed: seq<Claimed>,
                    id: EventId)
    requires KeepsWithin(db, ids, maxRowAttempts, customerId, claimed) && id !in ids
    requires id in db.events && db.events[id].facts.conversion.Some?
    ensures IsOverCeiling(db, id, maxRowAttempts) ==> KeepsWithin(db, ids + [id], maxRowAttempts, customerId, claimed)
    ensures !IsOverCeiling(db, id, maxRowAttempts) ==>
              KeepsWithin(db, ids + [id], maxRowAttempts, customerId, claimed + [EntryFor(db, id, customerId)])
  {
    var entry := EntryFor(db, id, customerId);
    assert forall i :: 0 <= i < |claimed| ==> IsClaimOf(db, ids, claimed[i], maxRowAttempts, customerId);
    forall other | other in ids + [id] && !IsOverCeiling(db, other, maxRowAttempts)
      ensures InBatch(claimed + [entry], other)
    {
      InBatchConcat(claimed, [entry], other);
      assert other == id ==> [entry][0].eventId == other;
    }
  }

  lemma {:induction false} ClaimedKeeps(db: Db, ids: seq<EventId>, maxRowAttempts: nat, customerId: string)
    requires HaveConversions(db, ids) && forall i, j :: 0 <= i < j < |ids| ==> ids[i] != ids[j]
    ensures KeepsWithin(db, ids, maxRowAttempts, customerId, ClaimedOf(db, ids, maxRowAttempts, customerId))
    decreases |ids|
  {
    if ids != [] {
      var last := |ids| - 1;
      ClaimedKeeps(db, ids[..last], maxRowAttempts, customerId);
      assert ids == ids[..last] + [ids[last]] && ids[last] !in ids[..last];
      KeepsAppend(db, ids[..last], maxRowAttempts, customerId,
                  ClaimedOf(db, ids[..last], maxRowAttempts, customerId), ids[last]);
    }
  }

  /** What one claim transaction does: the selected rows within the ceiling are owned, the others dead-lettered. */
  ghost predicate IsClaimResult(db: Db, ids: seq<EventId>, now: nat, maxRowAttempts: nat, customerId: string,
                                claimed: seq<Claimed>, after: Db)
  {
    && after.events.Keys == db.events.Keys
    && (forall id :: id in db.events && id !in ids ==> after.events[id] == db.events[id])
    && IsOwned(after, claimed)
    && (forall i :: 0 <= i < |claimed| ==> IsClaimedNow(db, ids, now, maxRowAttempts, customerId, claimed[i], after))
    && (forall id :: id in ids
          ==> id in db.events && (InBatch(claimed, id) || IsBuriedNow(db, id, maxRowAttempts, after)))
  }

  /** A selected row that was attempted too often: one attempt more, and dead-lettered. */
  predicate IsBuriedNow(db: Db, id: EventId, maxRowAttempts: nat, after: Db) {
    && id in db.events && db.events[id].status != DeadLettered && after.Has(id, DeadLettered)
    && after.events[id].attemptCount == db.events[id].attemptCount + 1 > maxRowAttempts
  }

  /** A claimed row shows one attempt more than before, made now, and within the ceiling. */
  predicate IsClaimedNow(db: Db, ids: seq<EventId>, now: nat, maxRowAttempts: nat, customerId: string, c: Claimed,
                         after: Db)
  {
    && c.eventId in ids && c.eventId in db.events && c.eventId in after.events
    && var e := after.events[c.eventId];
    && Changed(db.events[c.eventId], Claim, now) == Some(e)
    && e.attemptCount == c.attemptCount <= maxRowAttempts && e.lastAttemptAt == Some(now)
    && e.facts.conversion.Some? && c.conversion == ConversionRows.ConversionOf(c.eventId, e, customerId)
  }

  /** Burying the rows over the ceiling, from the tables as the claims left them. */
  ghost predicate IsBuried(mid: Db, ids: seq<EventId>, maxRowAttempts: nat, after: Db) {
    && after.events.Keys == mid.events.Keys
    && (forall id :: id in mid.events && (id !in ids || !IsOverCeiling(mid, id, maxRowAttempts)) ==>
          after.events[id] == mid.events[id])
    && (forall id :: id in ids && IsOverCeiling(mid, id, maxRowAttempts) ==>
          after.Has(id, DeadLettered) && after.events[id].attemptCount == mid.events[id].attemptCount)
  }

  lemma TargetIsBuried(mid: Db, ops: seq<Op>, after: Db, id: EventId)
    requires AreUpdates(ops) && IsTarget(ops, id) && IsRowByRow(mid, ops, after)
    requires forall i :: 0 <= i < |ops| ==> ops[i].change.DeadLetterRow?
    ensures id in mid.events && after.Has(id, DeadLettered)
    ensures after.events[id].attemptCount == mid.events[id].attemptCount
  {
    var j :| 0 <= j < |ops| && ops[j].Update? && ops[j].id == id;
    assert UpdatedRow(mid, ops[j]) == Some(after.events[ops[j].id]);
  }

  lemma BuriedRowByRow(mid: Db, ids: seq<EventId>, maxRowAttempts: nat, ops: seq<Op>, after: Db)
    requires BuriesOver(mid, ids, maxRowAttempts, ops) && AreDeadLetterings(ops, ids) && Run(mid, ops) == Some(after)
    ensures IsBuried(mid, ids, maxRowAttempts, after)
  {
    BatchRun(mid, ops);
    forall id | id in ids && IsOverCeiling(mid, id, maxRowAttempts)
      ensures after.Has(id, DeadLettered) && after.events[id].attemptCount == mid.events[id].attemptCount
    {
      TargetIsBuried(mid, ops, after, id);
    }
    forall id | id in mid.events && (id !in ids || !IsOverCeiling(mid, id, maxRowAttempts))
      ensures after.events[id] == mid.events[id]
    {
      assert !IsTarget(ops, id);
    }
  }

  /** Each listed row with its claim, nothing else changed. */
  ghost predicate IsClaimedAll(db: Db, ids: seq<EventId>, now: nat, mid: Db) {
    && mid.events.Keys == db.events.Keys
    && (forall id :: id in db.events && id !in ids ==> mid.events[id] == db.events[id])
    && (forall id :: id in ids ==> id in db.events && Changed(db.events[id], Claim, now) == Some(mid.events[id]))
  }

  lemma ClaimsRowByRow(db: Db, ids: seq<EventId>, now: nat, mid: Db)
    requires IsRowByRow(db, ClaimOps(ids, now), mid)
    ensures IsClaimedAll(db, ids, now, mid)
  {
    var ops := ClaimOps(ids, now);
    forall id | id in ids ensures id in db.events && Changed(db.events[id], Claim, now) == Some(mid.events[id]) {
      var i :| 0 <= i < |ids| && ids[i] == id;
      assert UpdatedRow(db, ops[i]) == Some(mid.events[ops[i].id]);
    }
    forall id | id in db.events && id !in ids ensures mid.events[id] == db.events[id] {
      assert !IsTarget(ops, id);
    }
  }

  lemma ClaimEffect(db: Db, mid: Db, ids: seq<EventId>, now: nat, maxRowAttempts: nat, customerId: string,
                    claimed: seq<Claimed>, after: Db)
    requires IsClaimedAll(db, ids, now, mid) && IsBuried(mid, ids, maxRowAttempts, after)
    requires KeepsWithin(mid, ids, maxRowAttempts, customerId, claimed)
    ensures IsClaimResult(db, ids, now, maxRowAttempts, customerId, claimed, after)
  {
    forall i | 0 <= i < |claimed|
      ensures IsClaimedNow(db, ids, now, maxRowAttempts, customerId, claimed[i], after)
      ensures after.Has(claimed[i].eventId, Uploading)
    {
      assert IsClaimOf(mid, ids, claimed[i], maxRowAttempts, customerId);
    }
    forall id | id in ids ensures InBatch(claimed, id) || IsBuriedNow(db, id, maxRowAttempts, after) {
      if IsOverCeiling(mid, id, maxRowAttempts) {
        assert after.events[id].attemptCount == mid.events[id].attemptCount;
      }
    }
  }

  /** Every row the claim query can select came in as a valid lead, so its request row can be built. */
  lemma SelectedHaveConversions(db: Db, now: nat, limit: nat, retryAfter: nat, staleAfter: nat, locked: set<EventId>,
                                ids: seq<EventId>)
    requires AllSound(db.events) && IsSelection(db.events, now, limit, retryAfter, staleAfter, locked, ids)
    ensures HaveConversions(db, ids)
  {
    hide IsExplained;
    forall i | 0 <= i < |ids| ensures ids[i] in db.events && db.events[ids[i]].facts.conversion.Some? {
      assert Claimable(db.events, ids[i], now, retryAfter, staleAfter, locked);
      assert IsSound(db.events[ids[i]]);
    }
  }

  lemma ConversionsStay(db: Db, ids: seq<EventId>, now: nat, mid: Db)
    requires HaveConversions(db, ids) && IsClaimedAll(db, ids, now, mid)
    ensures HaveConversions(mid, ids) && forall id :: id in ids ==> mid.Has(id, Uploading)
  {
    forall id | id in ids ensures mid.Has(id, Uploading) && mid.events[id].facts == db.events[id].facts {
      assert Changed(db.events[id], Claim, now) == Some(mid.events[id]);
    }
  }

  lemma BuryingRuns(mid: Db, ids: seq<EventId>, maxRowAttempts: nat, ops: seq<Op>)
    requires BuriesOver(mid, ids, maxRowAttempts, ops) && AreDeadLetterings(ops, ids)
    requires forall id :: id in ids ==> mid.Has(id, Uploading)
    ensures Run(mid, ops).Some?
  {
    forall i | 0 <= i < |ops| ensures UpdatedRow(mid, ops[i]).Some? {
      assert ops[i].id in ids && mid.Has(ops[i].id, Uploading);
    }
    BatchRun(mid, ops);
  }

  /** No claim ever raises: whatever the query selects from sound tables is claimed, buried or kept. */
  lemma ClaimAlwaysCommits(db: Db, now: nat, limit: nat, retryAfter: nat, staleAfter: nat, locked: set<EventId>,
                           ids: seq<EventId>, maxRowAttempts: nat, customerId: string)
    requires AllSound(db.events) && IsSelection(db.events, now, limit, retryAfter, staleAfter, locked, ids)
    ensures ClaimTx(db, ids, now, maxRowAttempts, customerId).Some?
    ensures var mid := Run(db, ClaimOps(ids, now)).GetOr(db);
            IsClaimedAll(db, ids, now, mid) && HaveConversions(mid, ids)
  {
    hide IsSelection, AllSound;
    SelectionIsLegal(db, now, limit, retryAfter, staleAfter, locked, ids);
    var mid := Run(db, ClaimOps(ids, now)).value;
    ClaimsRowByRow(db, ids, now, mid);
    SelectedHaveConversions(db, now, limit, retryAfter, staleAfter, locked, ids);
    ConversionsStay(db, ids, now, mid);
    SelectedAreDistinct(db, now, limit, retryAfter, staleAfter, locked, ids);
    var ceiling := CeilingOps(mid, ids, now, maxRowAttempts, customerId);
    CeilingBuries(mid, ids, now, maxRowAttempts, customerId);
    CeilingOpsDeadLetter(mid, ids, now, maxRowAttempts, customerId);
    BuryingRuns(mid, ids, maxRowAttempts, ceiling);
  }

  lemma SelectedAreDistinct(db: Db, now: nat, limit: nat, retryAfter: nat, staleAfter: nat, locked: set<EventId>,
                            ids: seq<EventId>)
    requires IsSelection(db.events, now, limit, retryAfter, staleAfter, locked, ids)
    ensures forall i, j :: 0 <= i < j < |ids| ==> ids[i] != ids[j]
  {
  }

  /** The claim transaction in its two halves. */
  lemma ClaimParts(cfg: Config, s: System, up: UploaderState, ids: seq<EventId>, locked: set<EventId>)
    returns (mid: Db, ceiling: seq<Op>)
    requires AllSound(s.db.events) && CanUpload(cfg, s, up, Cycle(ids, locked))
    ensures forall i, j :: 0 <= i < j < |ids| ==> ids[i] != ids[j]
    ensures Run(s.db, ClaimOps(ids, s.clock)) == Some(mid) && IsClaimedAll(s.db, ids, s.clock, mid)
    ensures mid == ClaimedTables(s.db, ids, s.clock) && HaveConversions(mid, ids)
    ensures BuriesOver(mid, ids, cfg.uploader.maxRowAttempts, ceiling) && AreDeadLetterings(ceiling, ids)
    ensures Run(mid, ceiling).Some? && Run(s.db, UploadOps(cfg, s, up, Cycle(ids, locked))) == Run(mid, ceiling)
  {
    var k := cfg.uploader;
    var limit := cfg.batchSize - |up.waiting|;
    ClaimAlwaysCommits(s.db, s.clock, limit, k.retryAfter, k.staleAfter, locked, ids, k.maxRowAttempts, k.customerId);
    SelectedAreDistinct(s.db, s.clock, limit, k.retryAfter, k.staleAfter, locked, ids);
    mid := ClaimedTables(s.db, ids, s.clock);
    ceiling := CeilingOps(mid, ids, s.clock, k.maxRowAttempts, k.customerId);
    RunConcat(s.db, ClaimOps(ids, s.clock), ceiling);
    CeilingBuries(mid, ids, s.clock, k.maxRowAttempts, k.customerId);
    CeilingOpsDeadLetter(mid, ids, s.clock, k.maxRowAttempts, k.customerId);
  }

  lemma ClaimRuns(cfg: Config, s: System, up: UploaderState, ids: seq<EventId>, locked: set<EventId>)
    returns (claimed: seq<Claimed>, after: Db)
    requires AllSound(s.db.events) && CanUpload(cfg, s, up, Cycle(ids, locked))
    ensures Run(s.db, UploadOps(cfg, s, up, Cycle(ids, locked))) == Some(after)
    ensures NextUploader(cfg, s, up, Cycle(ids, locked)) == AfterClaiming(cfg, s.clock, up, claimed)
    ensures IsClaimResult(s.db, ids, s.clock, cfg.uploader.maxRowAttempts, cfg.uploader.customerId, claimed, after)
  {
    var k := cfg.uploader;
    var mid, ceiling := ClaimParts(cfg, s, up, ids, locked);
    after := Run(mid, ceiling).value;
    claimed := ClaimedOf(mid, ids, k.maxRowAttempts, k.customerId);
    BuriedRowByRow(mid, ids, k.maxRowAttempts, ceiling, after);
    ClaimedKeeps(mid, ids, k.maxRowAttempts, k.customerId);
    ClaimEffect(s.db, mid, ids, s.clock, k.maxRowAttempts, k.customerId, claimed, after);
  }

  // --- Exactly when a claim breaks exclusivity ---

  lemma CycleIsIdle(cfg: Config, s: System, up: UploaderState, ids: seq<EventId>, locked: set<EventId>)
    requires CanUpload(cfg, s, up, Cycle(ids, locked))
    ensures up.flight.Idle?
  {
  }

  lemma ClaimedAreAdded(cfg: Config, now: nat, up: UploaderState, claimed: seq<Claimed>)
    requires up.flight.Idle?
    ensures AfterClaiming(cfg, now, up, claimed).Holding() == up.Holding() + claimed
  {
    assert up.Holding() == up.waiting;
  }

  /** A claim of rows nobody holds keeps exclusivity. */
  lemma FreshClaimKeepsExclusive(cfg: Config, s: System, u: nat, ids: seq<EventId>, claimed: seq<Claimed>, after: Db,
                                 next: UploaderState)
    requires IsExclusive(s.db, s.uploaders) && u < |s.uploaders|
    requires next.Holding() == s.uploaders[u].Holding() + claimed
    requires IsClaimResult(s.db, ids, s.clock, cfg.uploader.maxRowAttempts, cfg.uploader.customerId, claimed, after)
    requires forall id :: id in ids ==> !IsHeld(s.uploaders, id)
    ensures IsExclusive(after, s.uploaders[u := next])
  {
    HeldRowsStay(cfg, s, ids, claimed, after);
    JoinKeepsExclusive(s, u, claimed, after, next);
  }

  lemma JoinKeepsExclusive(s: System, u: nat, claimed: seq<Claimed>, after: Db, next: UploaderState)
    requires IsExclusive(s.db, s.uploaders) && u < |s.uploaders| && IsOwned(after, claimed)
    requires next.Holding() == s.uploaders[u].Holding() + claimed
    requires forall id :: IsHeld(s.uploaders, id) ==> !InBatch(claimed, id) && after.Has(id, Uploading)
    ensures IsExclusive(after, s.uploaders[u := next])
  {
    ClaimedJoin(s, u, claimed, after);
    ClaimerStaysApart(s, u, claimed, after, next);
    ReplaceKeepsExclusive(s.db, after, s.uploaders, u, next);
  }

  lemma ClaimerStaysApart(s: System, u: nat, claimed: seq<Claimed>, after: Db, next: UploaderState)
    requires AreApart(s.uploaders) && u < |s.uploaders| && next.Holding() == s.uploaders[u].Holding() + claimed
    requires forall id :: IsHeld(s.uploaders, id) ==> !InBatch(claimed, id) && after.Has(id, Uploading)
    ensures forall v, id :: 0 <= v < |s.uploaders| && v != u && Holds(s.uploaders[v], id) ==>
              !Holds(next, id) && after.Has(id, Uploading)
  {
    forall v, id | 0 <= v < |s.uploaders| && v != u && Holds(s.uploaders[v], id)
      ensures !Holds(next, id) && after.Has(id, Uploading)
    {
      assert IsHeld(s.uploaders, id) && !Holds(s.uploaders[u], id);
      InBatchConcat(s.uploaders[u].Holding(), claimed, id);
    }
  }

  lemma ClaimedJoin(s: System, u: nat, claimed: seq<Claimed>, after: Db)
    requires u < |s.uploaders| && IsOwned(s.db, s.uploaders[u].Holding()) && IsOwned(after, claimed)
    requires forall id :: IsHeld(s.uploaders, id) ==> !InBatch(claimed, id) && after.Has(id, Uploading)
    ensures IsOwned(after, s.uploaders[u].Holding() + claimed)
  {
    var held := s.uploaders[u].Holding();
    forall id | InBatch(held, id) ensures !InBatch(claimed, id) && after.Has(id, Uploading) {
      assert Holds(s.uploaders[u], id) && IsHeld(s.uploaders, id);
    }
    StillOwned(s.db, after, held);
    OwnedTogether(after, held, claimed);
  }

  lemma HeldRowsStay(cfg: Config, s: System, ids: seq<EventId>, claimed: seq<Claimed>, after: Db)
    requires IsExclusive(s.db, s.uploaders)
    requires IsClaimResult(s.db, ids, s.clock, cfg.uploader.maxRowAttempts, cfg.uploader.customerId, claimed, after)
    requires forall id :: id in ids ==> !IsHeld(s.uploaders, id)
    ensures forall id :: IsHeld(s.uploaders, id) ==> !InBatch(claimed, id) && after.Has(id, Uploading)
  {
    forall id | IsHeld(s.uploaders, id) ensures !InBatch(claimed, id) && after.Has(id, Uploading) {
      var v :| 0 <= v < |s.uploaders| && Holds(s.uploaders[v], id);
      assert s.db.Has(id, Uploading);
      assert forall i :: 0 <= i < |claimed| ==> claimed[i].eventId in ids;
    }
  }

  /** A claim of a row that somebody holds breaks exclusivity, whether it claims the row or buries it. */
  lemma HeldClaimBreaksExclusive(cfg: Config, s: System, u: nat, ids: seq<EventId>, claimed: seq<Claimed>, after: Db,
                                 next: UploaderState, id: EventId)
    requires u < |s.uploaders| && next.Holding() == s.uploaders[u].Holding() + claimed
    requires IsClaimResult(s.db, ids, s.clock, cfg.uploader.maxRowAttempts, cfg.uploader.customerId, claimed, after)
    requires id in ids && IsHeld(s.uploaders, id)
    ensures !IsExclusive(after, s.uploaders[u := next])
  {
    var up := s.uploaders[u];
    var uploaders := s.uploaders[u := next];
    InBatchConcat(up.Holding(), claimed, id);
    var v :| 0 <= v < |s.uploaders| && Holds(s.uploaders[v], id);
    assert Holds(uploaders[v], id);
    if IsExclusive(after, uploaders) {
      assert IsOwned(after, uploaders[v].Holding());
      assert after.Has(id, Uploading);
      assert InBatch(claimed, id) && Holds(uploaders[u], id);
      assert v == u;
      OwnedParts(after, up.Holding(), claimed);
    }
  }

  lemma ClaimKeepsExclusiveIff(cfg: Config, s: System, u: nat, ids: seq<EventId>, locked: set<EventId>)
    requires AllSound(s.db.events) && IsExclusive(s.db, s.uploaders) && u < |s.uploaders|
             && CanUpload(cfg, s, s.uploaders[u], Cycle(ids, locked))
    ensures Run(s.db, UploadOps(cfg, s, s.uploaders[u], Cycle(ids, locked))).Some?
    ensures var after := Run(s.db, UploadOps(cfg, s, s.uploaders[u], Cycle(ids, locked))).value;
            IsExclusive(after, s.uploaders[u := NextUploader(cfg, s, s.uploaders[u], Cycle(ids, locked))])
            <==> forall id :: id in ids ==> !IsHeld(s.uploaders, id)
  {
    var claimed, after := ClaimRuns(cfg, s, s.uploaders[u], ids, locked);
    ClaimedAreAdded(cfg, s.clock, s.uploaders[u], claimed);
    var next := NextUploader(cfg, s, s.uploaders[u], Cycle(ids, locked));
    if forall id :: id in ids ==> !IsHeld(s.uploaders, id) {
      FreshClaimKeepsExclusive(cfg, s, u, ids, claimed, after, next);
    } else {
      var id :| id in ids && IsHeld(s.uploaders, id);
      HeldClaimBreaksExclusive(cfg, s, u, ids, claimed, after, next, id);
    }
  }

  // --- Every other action ---

  /** Ingest, workers and operators never raise, and none of them touches a row in UPLOADING. */
  lemma OthersLeaveUploading(cfg: Config, s: System, a: Action)
    requires !a.Upload? && IsEnabled(cfg, s, a)
    ensures Run(s.db, LedgerOps(cfg, s, a)).Some?
    ensures var after := Run(s.db, LedgerOps(cfg, s, a)).value;
            forall id :: s.db.Has(id, Uploading) ==> id in after.events && after.events[id] == s.db.events[id]
  {
    match a {
      case IngestLead(lead) => SingleOp(s.db, InsertValidated(lead, s.clock));
      case IngestInvalid(id, source, sourceEventId, errors) =>
        SingleOp(s.db, InsertRejected(id, source, sourceEventId, errors, s.clock));
      case ProcessDelivery(ack) => ProcessingMoves(cfg.lib, s.db, s.queue.inflight[ack].message, s.clock);
      case ReplayCommit(record) => SingleOp(s.db, Replay(record, s.clock));
      case _ =>
    }
  }

  lemma OthersKeepExclusive(cfg: Config, s: System, a: Action)
    requires !a.Upload? && IsEnabled(cfg, s, a) && IsExclusive(s.db, s.uploaders)
    ensures Run(s.db, LedgerOps(cfg, s, a)).Some?
    ensures var next := AfterAction(cfg, s, a, Run(s.db, LedgerOps(cfg, s, a)).value);
            IsExclusive(next.db, next.uploaders)
  {
    OthersLeaveUploading(cfg, s, a);
    var db := Run(s.db, LedgerOps(cfg, s, a)).value;
    var next := AfterAction(cfg, s, a, db);
    assert next.uploaders == s.uploaders;
    OnlyDbMatters(cfg, s, a, db);
    forall u | 0 <= u < |s.uploaders| ensures IsOwned(next.db, s.uploaders[u].Holding()) {
      var batch := s.uploaders[u].Holding();
      forall id | InBatch(batch, id) ensures next.db.Has(id, Uploading) {
        assert s.db.Has(id, Uploading);
      }
      StillOwned(s.db, next.db, batch);
    }
  }

  /**
   * While every held row has one holder, no transaction of any process raises; and a step ends that
   * exactly when it is a claim that takes a row some uploader still holds.
   */
  lemma ExclusiveUntilHeldRowTaken(cfg: Config, s: System, a: Action)
    requires AllSound(s.db.events) && IsExclusive(s.db, s.uploaders) && IsEnabled(cfg, s, a)
    ensures Run(s.db, LedgerOps(cfg, s, a)).Some?
    ensures Do(cfg, s, a).Some?
    ensures var next := Do(cfg, s, a).value;
            IsExclusive(next.db, next.uploaders) <==> !TakesHeldRow(s, a)
  {
    hide IsExclusive, UploadOps, NextUploader, AllSound, CanUpload;
    if !a.Upload? {
      OthersKeepExclusive(cfg, s, a);
    } else if a.step.Cycle? {
      ClaimKeepsExclusiveIff(cfg, s, a.u, a.step.ids, a.step.locked);
    } else {
      OwnedStepKeepsExclusive(cfg, s, a.u, a.step);
    }
  }

  // --- The timing that rules such claims out ---

  /** The lease on the row has not run out. */
  predicate IsFresh(e: Event, now: nat, staleAfter: nat) {
    e.lastAttemptAt.Some? && now < e.lastAttemptAt.value + staleAfter
  }

  /** Whoever holds a row renewed or took its lease less than `staleAfter` ago. */
  ghost predicate IsTimely(cfg: Config, s: System) {
    forall id :: IsHeld(s.uploaders, id) && id in s.db.events
      ==> IsFresh(s.db.events[id], s.clock, cfg.uploader.staleAfter)
  }

  lemma TimelyClaimsAreSafe(cfg: Config, s: System, a: Action)
    requires IsExclusive(s.db, s.uploaders) && IsTimely(cfg, s) && IsEnabled(cfg, s, a)
    ensures !TakesHeldRow(s, a)
  {
    if a.Upload? && a.step.Cycle? {
      forall id | IsHeld(s.uploaders, id) ensures id !in a.step.ids {
        var v :| 0 <= v < |s.uploaders| && Holds(s.uploaders[v], id);
        assert s.db.Has(id, Uploading);
        assert forall i :: 0 <= i < |a.step.ids| ==>
          Claimable(s.db.events, a.step.ids[i], s.clock, cfg.uploader.retryAfter, cfg.uploader.staleAfter,
                    a.step.locked);
      }
    }
  }

  /** The claim of one row by an uploader that every other row is locked against. */
  function ClaimOfOne(s: System, u: nat, id: EventId): Action {
    Upload(u, Cycle([id], s.db.events.Keys - {id}))
  }

  lemma SelectionOfOne(db: Db, id: EventId, now: nat, limit: nat, retryAfter: nat, staleAfter: nat)
    requires limit >= 1 && id in db.events && Eligible(db.events[id], now, retryAfter, staleAfter)
    ensures IsSelection(db.events, now, limit, retryAfter, staleAfter, db.events.Keys - {id}, [id])
  {
    var locked := db.events.Keys - {id};
    assert forall other :: Claimable(db.events, other, now, retryAfter, staleAfter, locked) ==> other == id;
  }

  lemma ClaimOfOneRuns(db: Db, id: EventId, now: nat, maxRowAttempts: nat, customerId: string)
    requires db.Has(id, Uploading) && db.events[id].facts.conversion.Some?
    ensures ClaimTx(db, [id], now, maxRowAttempts, customerId).Some?
  {
    var ops := ClaimOps([id], now);
    assert ops == [Update(id, Claim, now)];
    SingleOp(db, ops[0]);
    var mid := Run(db, ops).value;
    assert mid.Has(id, Uploading) && mid.events[id].facts == db.events[id].facts;
    CeilingOfOneRuns(mid, id, now, maxRowAttempts, customerId);
  }

  lemma CeilingOfOneRuns(mid: Db, id: EventId, now: nat, maxRowAttempts: nat, customerId: string)
    requires mid.Has(id, Uploading) && mid.events[id].facts.conversion.Some?
    ensures HaveConversions(mid, [id]) && Run(mid, CeilingOps(mid, [id], now, maxRowAttempts, customerId)).Some?
  {
    var ops := CeilingOps(mid, [id], now, maxRowAttempts, customerId);
    assert [id][..0] == [] && CeilingOps(mid, [id][..0], now, maxRowAttempts, customerId) == [];
    if IsOverCeiling(mid, id, maxRowAttempts) {
      SingleOp(mid, Update(id, CeilingChange(id, mid.events[id], customerId), now));
      assert ops == [Update(id, CeilingChange(id, mid.events[id], customerId), now)];
    }
  }

  lemma OneRowCanBeClaimed(cfg: Config, s: System, u: nat, id: EventId)
    requires s.db.Has(id, Uploading) && IsSound(s.db.events[id])
    requires !IsFresh(s.db.events[id], s.clock, cfg.uploader.staleAfter)
    requires u < |s.uploaders| && s.uploaders[u].flight.Idle? && |s.uploaders[u].waiting| < cfg.batchSize
    ensures IsEnabled(cfg, s, ClaimOfOne(s, u, id))
  {
    var k := cfg.uploader;
    NoRowIsStranded(s.db.events[id], k.retryAfter, k.staleAfter, s.clock);
    SelectionOfOne(s.db, id, s.clock, cfg.batchSize - |s.uploaders[u].waiting|, k.retryAfter, k.staleAfter);
    ClaimOfOneRuns(s.db, id, s.clock, k.maxRowAttempts, k.customerId);
  }

  /**
   * In a reachable state with one holder per row and some uploader ready to claim, the timing condition
   * is exactly what keeps the next claim away from held rows.
   */
  lemma SafeExactlyWhenTimely(cfg: Config, s: System, u: nat)
    requires IsSoundDb(s.db) && IsExclusive(s.db, s.uploaders)
    requires u < |s.uploaders| && s.uploaders[u].flight.Idle? && |s.uploaders[u].waiting| < cfg.batchSize
    ensures IsTimely(cfg, s) <==> forall a :: IsEnabled(cfg, s, a) ==> !TakesHeldRow(s, a)
  {
    if IsTimely(cfg, s) {
      forall a | IsEnabled(cfg, s, a) ensures !TakesHeldRow(s, a) {
        TimelyClaimsAreSafe(cfg, s, a);
      }
    } else {
      var id :| IsHeld(s.uploaders, id) && id in s.db.events
                && !IsFresh(s.db.events[id], s.clock, cfg.uploader.staleAfter);
      var v :| 0 <= v < |s.uploaders| && Holds(s.uploaders[v], id);
      assert s.db.Has(id, Uploading) && IsSound(s.db.events[id]);
      OneRowCanBeClaimed(cfg, s, u, id);
      assert id in ClaimOfOne(s, u, id).step.ids;
      assert TakesHeldRow(s, ClaimOfOne(s, u, id));
    }
  }

  // --- Over runs ---

  /** Every claim of the run was made in a state in which held rows are fresh. */
  ghost predicate IsTimelyRun(cfg: Config, uploaders: nat, run: seq<Action>) {
    forall k :: 0 <= k < |run| && IsRun(cfg, uploaders, run[..k]) && run[k].Upload? && run[k].step.Cycle? ==>
      IsTimely(cfg, StateAfter(cfg, uploaders, run[..k]))
  }

  lemma TimelyPrefix(cfg: Config, uploaders: nat, run: seq<Action>)
    requires IsTimelyRun(cfg, uploaders, run) && run != []
    ensures IsTimelyRun(cfg, uploaders, run[..|run| - 1])
    ensures IsRun(cfg, uploaders, run[..|run| - 1]) && run[|run| - 1].Upload? && run[|run| - 1].step.Cycle? ==>
              IsTimely(cfg, StateAfter(cfg, uploaders, run[..|run| - 1]))
  {
    var before := run[..|run| - 1];
    forall k | 0 <= k < |before| && IsRun(cfg, uploaders, before[..k]) && before[k].Upload? && before[k].step.Cycle?
      ensures IsTimely(cfg, StateAfter(cfg, uploaders, before[..k]))
    {
      assert before[..k] == run[..k] && before[k] == run[k];
    }
  }

  lemma NobodyHoldsAtStart(uploaders: nat)
    ensures IsExclusive(Initial(uploaders).db, Initial(uploaders).uploaders)
  {
    var s := Initial(uploaders);
    assert forall u :: 0 <= u < |s.uploaders| ==> s.uploaders[u].Holding() == [];
  }

  /** With every lease renewed in time, each claimed row has one holder, in every reachable state. */
  lemma {:induction false} OneHolderInTimelyRuns(cfg: Config, uploaders: nat, run: seq<Action>)
    requires IsRun(cfg, uploaders, run) && IsTimelyRun(cfg, uploaders, run)
    ensures var s := StateAfter(cfg, uploaders, run);
            IsExclusive(s.db, s.uploaders)
    decreases |run|
  {
    if run == [] {
      NobodyHoldsAtStart(uploaders);
    } else {
      RunSplits(cfg, uploaders, run);
      TimelyPrefix(cfg, uploaders, run);
      var before, a := run[..|run| - 1], run[|run| - 1];
      OneHolderInTimelyRuns(cfg, uploaders, before);
      var s := StateAfter(cfg, uploaders, before);
      if a.Upload? && a.step.Cycle? {
        TimelyClaimsAreSafe(cfg, s, a);
      }
      TablesSoundInEveryRun(cfg, uploaders, before);
      ExclusiveUntilHeldRowTaken(cfg, s, a);
    }
  }

  /** So no batch holds an event twice, and whatever happens next, no transaction is rolled back. */
  lemma NothingRaisesInTimelyRuns(cfg: Config, uploaders: nat, run: seq<Action>, a: Action)
    requires IsRun(cfg, uploaders, run) && IsTimelyRun(cfg, uploaders, run)
    requires IsEnabled(cfg, StateAfter(cfg, uploaders, run), a)
    ensures var s := StateAfter(cfg, uploaders, run);
            && Run(s.db, LedgerOps(cfg, s, a)).Some?
            && forall u, i, j :: 0 <= u < |s.uploaders| && 0 <= i < j < |s.uploaders[u].Batch()| ==>
                 s.uploaders[u].Batch()[i].eventId != s.uploaders[u].Batch()[j].eventId
  {
    var s := StateAfter(cfg, uploaders, run);
    OneHolderInTimelyRuns(cfg, uploaders, run);
    TablesSoundInEveryRun(cfg, uploaders, run);
    ExclusiveUntilHeldRowTaken(cfg, s, a);
    forall u | 0 <= u < |s.uploaders| ensures IsOwned(s.db, s.uploaders[u].Batch()) {
      OwnedParts(s.db, s.uploaders[u].waiting, s.uploaders[u].Batch());
    }
  }
}

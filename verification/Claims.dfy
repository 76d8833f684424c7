/** What one claim leaves of every row it selected: said of the attempts the row had before. */
module Claims {
  import opened Wrappers
  import opened Status
  import opened Model
  import opened ConversionRows
  import opened Ledger
  import opened LedgerInvariants
  import opened Transactions
  import opened Delivery
  import opened Outcomes
  import opened AuditTrail
  import opened LeaseExclusivity

  /** UPLOADING with one attempt more, made now; a re-claimed row keeps its reason, any other starts without. */
  predicate IsTaken(before: Event, after: Event, now: nat) {
    && after.status == Uploading && after.attemptCount == before.attemptCount + 1 && after.lastAttemptAt == Some(now)
    && after.facts == before.facts && after.digests == before.digests
    && after.statusReason == (if before.status == Uploading then before.statusReason else None)
    && after.log
       == before.log + [LogEntry(Some(before.status), Uploading,
                                 if before.status == Uploading then Some(ReclaimedStale) else None, now)]
  }

  lemma ClaimTakes(e: Event, now: nat)
    requires Changed(e, Claim, now).Some?
    ensures IsTaken(e, Changed(e, Claim, now).value, now)
  {
  }

  /** The call that buries one row over the ceiling. */
  lemma {:induction false} CeilingCallFor(mid: Db, ids: seq<EventId>, now: nat, maxRowAttempts: nat, customerId: string,
                                          id: EventId)
    returns (j: nat)
    requires HaveConversions(mid, ids) && id in ids && IsOverCeiling(mid, id, maxRowAttempts)
    ensures j < |CeilingOps(mid, ids, now, maxRowAttempts, customerId)|
    ensures CeilingOps(mid, ids, now, maxRowAttempts, customerId)[j]
            == Update(id, CeilingChange(id, mid.events[id], customerId), now)
    decreases |ids|
  {
    hide ConversionOf;
    var last := |ids| - 1;
    var before := CeilingOps(mid, ids[..last], now, maxRowAttempts, customerId);
    assert ids == ids[..last] + [ids[last]];
    if ids[last] == id {
      j := |before|;
    } else {
      assert id in ids[..last];
      j := CeilingCallFor(mid, ids[..last], now, maxRowAttempts, customerId, id);
    }
  }

  /** A selected row after the claim: taken, or buried because it had its attempts already. */
  predicate IsClaimedOrBuried(db: Db, id: EventId, now: nat, maxRowAttempts: nat, customerId: string,
                              claimed: seq<Claimed>, after: Db)
  {
    && id in db.events && id in after.events && db.events[id].facts.conversion.Some?
    && var row := ConversionOf(id, db.events[id], customerId);
    if db.events[id].attemptCount >= maxRowAttempts
    then
      && IsCondemned(after, |db.dead|, Claimed(id, 0, row), Poison, AttemptCeiling(db.events[id].attemptCount),
                     "row_attempt_ceiling", now)
      && after.events[id].attemptCount == db.events[id].attemptCount + 1 && !InBatch(claimed, id)
    else
      IsTaken(db.events[id], after.events[id], now) && Claimed(id, db.events[id].attemptCount + 1, row) in claimed
  }

  lemma ClaimsAddNoRecords(db: Db, ids: seq<EventId>, now: nat)
    requires forall i, j :: 0 <= i < j < |ids| ==> ids[i] != ids[j]
    requires Run(db, ClaimOps(ids, now)).Some?
    ensures Run(db, ClaimOps(ids, now)).value.dead == db.dead
  {
    var ops := ClaimOps(ids, now);
    UpdatesAddRecords(db, ops);
    assert Burials(ops) == {};
  }

  lemma SameRequestRow(id: EventId, before: Event, after: Event, customerId: string)
    requires before.facts.conversion.Some? && after.facts == before.facts && after.digests == before.digests
    ensures ConversionOf(id, after, customerId) == ConversionOf(id, before, customerId)
  {
  }

  lemma BuryingKeepsAttempts(e: Event, change: Change, now: nat)
    requires change.DeadLetterRow? && Changed(e, change, now).Some?
    ensures Changed(e, change, now).value.attemptCount == e.attemptCount
  {
  }

  lemma BuriedByCeiling(db: Db, mid: Db, ids: seq<EventId>, now: nat, maxRowAttempts: nat, customerId: string,
                        after: Db, id: EventId)
    requires HaveConversions(mid, ids) && id in ids && IsOverCeiling(mid, id, maxRowAttempts)
    requires forall i, j :: 0 <= i < j < |ids| ==> ids[i] != ids[j]
    requires Run(mid, CeilingOps(mid, ids, now, maxRowAttempts, customerId)) == Some(after) && mid.dead == db.dead
    requires id in db.events && IsTaken(db.events[id], mid.events[id], now)
    ensures db.events[id].facts.conversion.Some?
    ensures IsCondemned(after, |db.dead|, Claimed(id, 0, ConversionOf(id, db.events[id], customerId)), Poison,
                        AttemptCeiling(db.events[id].attemptCount), "row_attempt_ceiling", now)
    ensures after.events[id].attemptCount == db.events[id].attemptCount + 1
  {
    hide ConversionOf, HasRecord, Run, Changed, CeilingOps, IsTarget, IsCondemned;
    var ops := CeilingOps(mid, ids, now, maxRowAttempts, customerId);
    CeilingBuries(mid, ids, now, maxRowAttempts, customerId);
    BatchRun(mid, ops);
    assert HaveConversions(mid, ids) && mid.events[id].facts.conversion.Some?;
    SameRequestRow(id, db.events[id], mid.events[id], customerId);
    var j := CeilingCallFor(mid, ids, now, maxRowAttempts, customerId, id);
    assert UpdatedRow(mid, ops[j]) == Some(after.events[ops[j].id]);
    BuryingKeepsAttempts(mid.events[id], ops[j].change, now);
    RowIsCondemned(mid, ops, after, j, Claimed(id, 0, ConversionOf(id, db.events[id], customerId)), Poison,
                   AttemptCeiling(db.events[id].attemptCount), "row_attempt_ceiling", now);
  }

  /**
   * A claim on sound tables: every selected row that had fewer attempts than the ceiling is taken, with its
   * request row; every other is dead-lettered as poison, with the attempts it had, and not taken.
   */
  lemma EveryRowIsClaimedOrBuried(db: Db, now: nat, limit: nat, retryAfter: nat, staleAfter: nat,
                                  locked: set<EventId>, ids: seq<EventId>, maxRowAttempts: nat, customerId: string)
    requires AllSound(db.events) && IsSelection(db.events, now, limit, retryAfter, staleAfter, locked, ids)
    ensures var tx := ClaimTx(db, ids, now, maxRowAttempts, customerId);
            && tx.Some?
            && (forall id :: id in ids ==>
                  IsClaimedOrBuried(db, id, now, maxRowAttempts, customerId, tx.value.1, tx.value.0))
  {
    hide IsSelection, AllSound, ConversionOf, CeilingOps, ClaimedOf, IsCondemned, IsTaken;
    ClaimAlwaysCommits(db, now, limit, retryAfter, staleAfter, locked, ids, maxRowAttempts, customerId);
    SelectedAreDistinct(db, now, limit, retryAfter, staleAfter, locked, ids);
    var mid := Run(db, ClaimOps(ids, now)).value;
    var after, claimed := ClaimTx(db, ids, now, maxRowAttempts, customerId).value.0,
                          ClaimedOf(mid, ids, maxRowAttempts, customerId);
    ClaimsAddNoRecords(db, ids, now);
    ClaimedKeeps(mid, ids, maxRowAttempts, customerId);
    CeilingBuries(mid, ids, now, maxRowAttempts, customerId);
    CeilingOpsDeadLetter(mid, ids, now, maxRowAttempts, customerId);
    BuriedRowByRow(mid, ids, maxRowAttempts, CeilingOps(mid, ids, now, maxRowAttempts, customerId), after);
    forall id | id in ids ensures IsClaimedOrBuried(db, id, now, maxRowAttempts, customerId, claimed, after) {
      ClaimTakes(db.events[id], now);
      OneRowClaimed(db, mid, ids, now, maxRowAttempts, customerId, claimed, after, id);
    }
  }

  lemma OneRowClaimed(db: Db, mid: Db, ids: seq<EventId>, now: nat, maxRowAttempts: nat, customerId: string,
                      claimed: seq<Claimed>, after: Db, id: EventId)
    requires id in ids && id in db.events && id in mid.events && IsTaken(db.events[id], mid.events[id], now)
    requires HaveConversions(mid, ids) && mid.dead == db.dead
    requires forall i, j :: 0 <= i < j < |ids| ==> ids[i] != ids[j]
    requires KeepsWithin(mid, ids, maxRowAttempts, customerId, claimed)
    requires IsBuried(mid, ids, maxRowAttempts, after)
    requires Run(mid, CeilingOps(mid, ids, now, maxRowAttempts, customerId)) == Some(after)
    ensures IsClaimedOrBuried(db, id, now, maxRowAttempts, customerId, claimed, after)
  {
    hide ConversionOf, CeilingOps, IsCondemned, Run;
    var k :| 0 <= k < |ids| && ids[k] == id;
    assert mid.events[ids[k]].facts.conversion.Some?;
    SameRequestRow(id, db.events[id], mid.events[id], customerId);
    if IsOverCeiling(mid, id, maxRowAttempts) {
      BuriedByCeiling(db, mid, ids, now, maxRowAttempts, customerId, after, id);
      forall i | 0 <= i < |claimed| ensures claimed[i].eventId != id {
        assert IsClaimOf(mid, ids, claimed[i], maxRowAttempts, customerId);
      }
    } else {
      assert InBatch(claimed, id);
      var i :| 0 <= i < |claimed| && claimed[i].eventId == id;
      assert IsClaimOf(mid, ids, claimed[i], maxRowAttempts, customerId);
    }
  }
}

/**
 * The table lets an event go from FAILED_RETRYABLE straight to DEAD_LETTERED. Exactly which steps of the
 * pipeline take it there, and therefore which runs do.
 */
module Straightness {
  import opened Wrappers
  import opened Status
  import opened Model
  import opened Ledger
  import opened LedgerInvariants
  import opened Transactions
  import opened Delivery
  import opened Settlement
  import opened Raising
  import opened Pipeline
  import opened AuditTrail
  import opened Provenance
  import opened LeaseExclusivity

  /** No line of the log dead-letters the event from FAILED_RETRYABLE. */
  predicate IsStraight(log: seq<LogEntry>) {
    forall i :: 0 <= i < |log| ==> !(log[i].from == Some(FailedRetryable) && log[i].to == DeadLettered)
  }

  ghost predicate AllStraight(events: map<EventId, Event>) {
    forall id :: id in events ==> IsStraight(events[id].log)
  }

  /** A call that does not dead-letter an event in FAILED_RETRYABLE. */
  predicate GoesStraight(db: Db, op: Op) {
    op.Update? && op.change.DeadLetterRow? ==> !db.Has(op.id, FailedRetryable)
  }

  lemma ChangeStaysStraight(e: Event, change: Change, now: nat)
    requires IsStraight(e.log) && Changed(e, change, now).Some?
    requires change.DeadLetterRow? ==> e.status != FailedRetryable
    ensures IsStraight(Changed(e, change, now).value.log)
  {
  }

  lemma StepStaysStraight(db: Db, op: Op)
    requires AllStraight(db.events) && GoesStraight(db, op) && Step(db, op).Some?
    ensures AllStraight(Step(db, op).value.events)
  {
    if op.Update? {
      ChangeStaysStraight(db.events[op.id], op.change, op.at);
    }
  }

  // --- Exactly which transactions skip the retry ---

  lemma CrookedStays(db: Db, op: Op)
    requires !AllStraight(db.events) && Step(db, op).Some?
    ensures !AllStraight(Step(db, op).value.events)
  {
    var id :| id in db.events && !IsStraight(db.events[id].log);
    var log := db.events[id].log;
    var i :| 0 <= i < |log| && log[i].from == Some(FailedRetryable) && log[i].to == DeadLettered;
    LogsGrow(db, op, id);
    assert Step(db, op).value.events[id].log[i] == log[i];
  }

  lemma LogsGrow(db: Db, op: Op, id: EventId)
    requires id in db.events && Step(db, op).Some?
    ensures id in Step(db, op).value.events && db.events[id].log <= Step(db, op).value.events[id].log
  {
  }

  lemma BuryingSkips(db: Db, op: Op)
    requires !GoesStraight(db, op) && Step(db, op).Some?
    ensures !AllStraight(Step(db, op).value.events)
  {
    var e := Step(db, op).value.events[op.id];
    var last := e.log[|e.log| - 1];
    assert last.from == Some(FailedRetryable) && last.to == DeadLettered;
    assert !IsStraight(e.log);
  }

  /** Call number i is reached, and buries an event that is FAILED_RETRYABLE by then. */
  predicate SkipsAt(db: Db, ops: seq<Op>, i: nat)
    requires i < |ops|
  {
    Run(db, ops[..i]).Some? && !GoesStraight(Run(db, ops[..i]).value, ops[i])
  }

  /** A committed transaction leaves the logs straight exactly when none of its calls does that. */
  lemma {:induction false} RunStraightIff(db: Db, ops: seq<Op>)
    requires AllStraight(db.events) && Run(db, ops).Some?
    ensures AllStraight(Run(db, ops).value.events) <==> forall i :: 0 <= i < |ops| ==> !SkipsAt(db, ops, i)
    decreases |ops|
  {
    if ops != [] {
      var last := |ops| - 1;
      var before := ops[..last];
      assert ops == before + [ops[last]];
      RunConcat(db, before, [ops[last]]);
      var mid := Run(db, before).value;
      SingleOp(mid, ops[last]);
      RunStraightIff(db, before);
      forall i | 0 <= i < last ensures SkipsAt(db, ops, i) <==> SkipsAt(db, before, i) {
        assert ops[..i] == before[..i];
      }
      assert SkipsAt(db, ops, last) <==> !GoesStraight(mid, ops[last]);
      if !AllStraight(mid.events) {
        CrookedStays(mid, ops[last]);
      } else if GoesStraight(mid, ops[last]) {
        StepStaysStraight(mid, ops[last]);
      } else {
        BuryingSkips(mid, ops[last]);
      }
    }
  }

  // --- Claims, retries and the other processes never do ---

  lemma {:induction false} BatchStaysStraight(db: Db, ops: seq<Op>)
    requires AllStraight(db.events) && AreUpdates(ops) && HaveDistinctTargets(ops) && Run(db, ops).Some?
    requires forall i :: 0 <= i < |ops| ==> GoesStraight(db, ops[i])
    ensures AllStraight(Run(db, ops).value.events)
    decreases |ops|
  {
    if ops != [] {
      TailTargets(ops);
      StepStaysStraight(db, ops[0]);
      var next := Step(db, ops[0]).value;
      forall i | 0 <= i < |ops[1..]| ensures GoesStraight(next, ops[1..][i]) {
        assert ops[1..][i] == ops[i + 1] && GoesStraight(db, ops[i + 1]);
        assert ops[i + 1].id != ops[0].id;
      }
      BatchStaysStraight(next, ops[1..]);
    }
  }

  lemma CeilingStaysStraight(mid: Db, ids: seq<EventId>, maxRowAttempts: nat, ops: seq<Op>)
    requires AllStraight(mid.events) && forall id :: id in ids ==> mid.Has(id, Uploading)
    requires BuriesOver(mid, ids, maxRowAttempts, ops) && AreDeadLetterings(ops, ids) && Run(mid, ops).Some?
    ensures AllStraight(Run(mid, ops).value.events)
  {
    forall i | 0 <= i < |ops| ensures GoesStraight(mid, ops[i]) {
      assert ops[i].id in ids && mid.Has(ops[i].id, Uploading);
    }
    BatchStaysStraight(mid, ops);
  }

  lemma ClaimsStayStraight(db: Db, ids: seq<EventId>, now: nat)
    requires AllStraight(db.events) && forall i, j :: 0 <= i < j < |ids| ==> ids[i] != ids[j]
    requires Run(db, ClaimOps(ids, now)).Some?
    ensures AllStraight(Run(db, ClaimOps(ids, now)).value.events)
  {
    BatchStaysStraight(db, ClaimOps(ids, now));
  }

  lemma ClaimedAreUploading(db: Db, ids: seq<EventId>, now: nat, mid: Db)
    requires IsClaimedAll(db, ids, now, mid)
    ensures forall id :: id in ids ==> mid.Has(id, Uploading)
  {
    forall id | id in ids ensures mid.Has(id, Uploading) {
      assert Changed(db.events[id], Claim, now) == Some(mid.events[id]);
    }
  }

  lemma ClaimStaysStraight(cfg: Config, s: System, up: UploaderState, ids: seq<EventId>, locked: set<EventId>)
    requires AllSound(s.db.events) && AllStraight(s.db.events) && CanUpload(cfg, s, up, Cycle(ids, locked))
    ensures Run(s.db, UploadOps(cfg, s, up, Cycle(ids, locked))).Some?
    ensures AllStraight(Run(s.db, UploadOps(cfg, s, up, Cycle(ids, locked))).value.events)
  {
    var mid, ceiling := ClaimParts(cfg, s, up, ids, locked);
    ClaimsStayStraight(s.db, ids, s.clock);
    ClaimedAreUploading(s.db, ids, s.clock, mid);
    CeilingStaysStraight(mid, ids, cfg.uploader.maxRowAttempts, ceiling);
  }

  lemma RetriesStayStraight(db: Db, batch: seq<Claimed>, cause: string, now: nat)
    requires AllStraight(db.events) && Run(db, RetryOps(db, batch, cause, now)).Some?
    ensures AllStraight(Run(db, RetryOps(db, batch, cause, now)).value.events)
  {
    RunStraightIff(db, RetryOps(db, batch, cause, now));
  }

  lemma OthersStayStraight(cfg: Config, s: System, a: Action)
    requires AllStraight(s.db.events) && !a.Upload? && Run(s.db, LedgerOps(cfg, s, a)).Some?
    ensures AllStraight(Run(s.db, LedgerOps(cfg, s, a)).value.events)
  {
    var ops := LedgerOps(cfg, s, a);
    assert |ops| <= 1;
    if |ops| == 1 {
      assert ops == [ops[0]];
      SingleOp(s.db, ops[0]);
      assert GoesStraight(s.db, ops[0]);
      StepStaysStraight(s.db, ops[0]);
    }
  }

  // --- Exactly which settlements do ---

  lemma VerdictStraightIff(e: Event, verdict: Op)
    requires IsStraight(e.log) && AreVerdicts([verdict]) && verdict.Update?
    requires Changed(e, verdict.change, verdict.at).Some?
    ensures var after := Changed(e, verdict.change, verdict.at).value;
            && (IsStraight(after.log) <==> !(e.status == FailedRetryable && verdict.change.DeadLetterRow?))
            && (verdict.change.MarkRetryable? ==> after.status == FailedRetryable)
  {
    assert AreVerdicts([verdict]) ==> [verdict][0] == verdict;
    var after := Changed(e, verdict.change, verdict.at).value;
    assert after.log[|e.log|].from == Some(e.status) && after.log[|e.log|].to == after.status;
  }

  lemma SettledRowStraightIff(e: Event, verdicts: seq<Op>)
    requires IsStraight(e.log) && AreVerdicts(verdicts) && CanSettle(e.status, verdicts)
    ensures RowAfter(e, verdicts).Some?
    ensures IsStraight(RowAfter(e, verdicts).value.log) <==> e.status == Uploading && |verdicts| == 1
  {
    hide IsStraight, Changed;
    RowSettlesIff(e, verdicts);
    var first := Changed(e, verdicts[0].change, verdicts[0].at).value;
    VerdictStraightIff(e, verdicts[0]);
    if |verdicts| == 2 {
      var rest := verdicts[1..];
      assert rest[0] == verdicts[1] && rest[1..] == [];
      assert RowAfter(e, verdicts) == RowAfter(first, rest);
      VerdictStraightIff(first, rest[0]);
      var second := Changed(first, rest[0].change, rest[0].at).value;
      assert RowAfter(first, rest) == RowAfter(second, []) == Some(second);
    } else {
      assert verdicts[1..] == [];
      assert RowAfter(e, verdicts) == RowAfter(first, []) == Some(first);
    }
  }

  /** Every event of the batch is in it once, and UPLOADING. */
  predicate IsPlain(db: Db, batch: seq<Claimed>) {
    forall i :: 0 <= i < |batch| ==>
      db.Has(batch[i].eventId, Uploading) && multiset(Ids(batch))[batch[i].eventId] == 1
  }

  /** A committed settlement leaves the logs straight exactly when its batch is plain. */
  lemma SettlementStraightIff(db: Db, batch: seq<Claimed>, rows: seq<RowResult>, now: nat)
    requires AllStraight(db.events) && |rows| == |batch| && Run(db, ApplyOps(batch, rows, now)).Some?
    ensures AllStraight(Run(db, ApplyOps(batch, rows, now)).value.events) <==> IsPlain(db, batch)
  {
    hide IsStraight, Changed;
    var ops := ApplyOps(batch, rows, now);
    var after := Run(db, ops).value;
    SettlementCommitsIff(db, batch, rows, now);
    RowsRunApart(db, ops);
    forall id | id in db.events
      ensures InBatch(batch, id) ==>
                (IsStraight(after.events[id].log)
                 <==> db.Has(id, Uploading) && multiset(Ids(batch))[id] == 1)
      ensures !InBatch(batch, id) ==> IsStraight(after.events[id].log)
    {
      SettledRowAfter(db, batch, rows, now, id, after);
    }
    forall i | 0 <= i < |batch| ensures batch[i].eventId in db.events && InBatch(batch, batch[i].eventId) {
    }
  }

  lemma SettledRowAfter(db: Db, batch: seq<Claimed>, rows: seq<RowResult>, now: nat, id: EventId, after: Db)
    requires AllStraight(db.events) && id in db.events && |rows| == |batch| && CanSettleAll(db, batch, rows, now)
    requires IsApart(db, ApplyOps(batch, rows, now), after)
    ensures InBatch(batch, id) ==>
              (IsStraight(after.events[id].log) <==> db.Has(id, Uploading) && multiset(Ids(batch))[id] == 1)
    ensures !InBatch(batch, id) ==> IsStraight(after.events[id].log)
  {
    hide IsStraight, CanSettle;
    TargetIsInBatch(batch, rows, now, id);
    OneVerdictPerOccurrence(batch, rows, now, id);
    if InBatch(batch, id) {
      var i :| 0 <= i < |batch| && batch[i].eventId == id;
      assert CanSettle(db.events[batch[i].eventId].status, VerdictsOn(batch, rows, now, batch[i].eventId));
      SettledRowStraightIff(db.events[id], VerdictsOn(batch, rows, now, id));
    }
  }

  // --- Exactly which batches given up do ---

  lemma BuriedRowStraightIff(e: Event, change: Change, now: nat)
    requires IsStraight(e.log) && change.DeadLetterRow? && Changed(e, change, now).Some?
    ensures IsStraight(Changed(e, change, now).value.log) <==> e.status != FailedRetryable
  {
    var after := Changed(e, change, now).value;
    assert after.log[|e.log|].from == Some(e.status) && after.log[|e.log|].to == DeadLettered;
  }

  lemma GivingUpStraightIff(db: Db, batch: seq<Claimed>, failureClass: FailureClass, reason: Reason, code: string,
                            now: nat)
    requires AllStraight(db.events) && Run(db, DeadLetterAllOps(db, batch, failureClass, reason, code, now)).Some?
    ensures AllStraight(Run(db, DeadLetterAllOps(db, batch, failureClass, reason, code, now)).value.events)
            <==> forall i :: 0 <= i < |batch| ==> !db.Has(batch[i].eventId, FailedRetryable)
  {
    hide DeadLetterAllOps, GivenUp, IsStraight;
    var ids, ops := GivenUp(db, batch), DeadLetterAllOps(db, batch, failureClass, reason, code, now);
    GivenUpAre(db, batch);
    GivingUpOps(db, batch, failureClass, reason, code, now);
    BatchRun(db, ops);
    var after := Run(db, ops).value;
    forall i | 0 <= i < |ids|
      ensures ids[i] in after.events && (IsStraight(after.events[ids[i]].log) <==> !db.Has(ids[i], FailedRetryable))
    {
      assert UpdatedRow(db, ops[i]) == Some(after.events[ops[i].id]);
      BuriedRowStraightIff(db.events[ids[i]], ops[i].change, ops[i].at);
    }
    forall id | id in db.events && id !in ids ensures IsStraight(after.events[id].log) {
      assert !IsTarget(ops, id);
    }
    if AllStraight(after.events) {
      forall i | 0 <= i < |batch| ensures !db.Has(batch[i].eventId, FailedRetryable) {
        if batch[i].eventId in db.events {
          assert batch[i].eventId in ids;
        }
      }
    }
    if forall i :: 0 <= i < |batch| ==> !db.Has(batch[i].eventId, FailedRetryable) {
      forall i | 0 <= i < |ids| ensures !db.Has(ids[i], FailedRetryable) {
        assert InBatch(batch, ids[i]);
      }
    }
  }

  // --- Exactly which steps do ---

  /**
   * Settling or giving up, without an exception, a batch with a row that is FAILED_RETRYABLE already, or
   * settling one that holds an event twice.
   */
  predicate SkipsRetry(s: System, a: Action) {
    && a.Upload? && a.u < |s.uploaders| && !MustRaise(s, a)
    && var batch := s.uploaders[a.u].Batch();
    match a.step
    case Settle => !IsPlain(s.db, batch)
    case GiveUp => exists i :: 0 <= i < |batch| && s.db.Has(batch[i].eventId, FailedRetryable)
    case _ => false
  }

  lemma UploadStraightIff(cfg: Config, s: System, u: nat, step: UploadStep)
    requires AllSound(s.db.events) && AllStraight(s.db.events)
    requires u < |s.uploaders| && CanUpload(cfg, s, s.uploaders[u], step)
    requires Run(s.db, UploadOps(cfg, s, s.uploaders[u], step)).Some?
    ensures AllStraight(Run(s.db, UploadOps(cfg, s, s.uploaders[u], step)).value.events)
            <==> !SkipsRetry(s, Upload(u, step))
  {
    hide AllSound, AllStraight, IsPlain;
    UploadRaisesIff(cfg, s, u, step);
    var up := s.uploaders[u];
    match step {
      case Cycle(ids, locked) => ClaimStaysStraight(cfg, s, up, ids, locked);
      case Retry => RetriesStayStraight(s.db, up.flight.batch, up.flight.why, s.clock);
      case GiveUp => GiveUpStraightIff(cfg, s, up);
      case Settle => SettlementStraightIff(s.db, up.flight.batch, up.flight.rows, up.flight.startedAt);
      case _ =>
    }
  }

  lemma GiveUpStraightIff(cfg: Config, s: System, up: UploaderState)
    requires AllStraight(s.db.events) && (up.flight.Failed? || up.flight.Refused?)
    requires Run(s.db, UploadOps(cfg, s, up, GiveUp)).Some?
    ensures AllStraight(Run(s.db, UploadOps(cfg, s, up, GiveUp)).value.events)
            <==> forall i :: 0 <= i < |up.Batch()| ==> !s.db.Has(up.Batch()[i].eventId, FailedRetryable)
  {
    hide UploadOps, DeadLetterAllOps, AllStraight;
    GiveUpOf(cfg, s, up);
    var f := up.flight;
    if f.Failed? {
      GivingUpStraightIff(s.db, up.Batch(), Poison, PoisonRequest(f.why, f.attempt), f.why, f.startedAt);
    } else {
      GivingUpStraightIff(s.db, up.Batch(), Permanent, PermanentRequest(f.why), f.why, f.startedAt);
    }
  }

  /** From straight logs, a step of any process leaves them straight exactly when it is no such step. */
  lemma StraightExactlyUntil(cfg: Config, s: System, a: Action)
    requires AllSound(s.db.events) && AllStraight(s.db.events) && Do(cfg, s, a).Some?
    ensures AllStraight(Do(cfg, s, a).value.db.events) <==> !SkipsRetry(s, a)
  {
    hide AllSound, AllStraight, SkipsRetry, UploadOps, NextUploader, CanUpload;
    var db, raised := StepForm(cfg, s, a);
    RaisesExactlyWhen(cfg, s, a);
    if a.Upload? {
      NoSkipWhenRaised(s, a);
      if !raised {
        UploadStraightIff(cfg, s, a.u, a.step);
      }
    } else {
      OthersSkipNothing(s, a);
      OnlyDbMatters(cfg, s, a, db);
      OthersStayStraight(cfg, s, a);
    }
  }

  lemma NoSkipWhenRaised(s: System, a: Action)
    ensures MustRaise(s, a) ==> !SkipsRetry(s, a)
  {
  }

  lemma OthersSkipNothing(s: System, a: Action)
    requires !a.Upload?
    ensures !SkipsRetry(s, a) && !MustRaise(s, a)
  {
  }

  // --- Exactly which runs do ---

  lemma CrookedForGood(before: Db, after: Db)
    requires DbContinues(before, after) && !AllStraight(before.events)
    ensures !AllStraight(after.events)
  {
    var id :| id in before.events && !IsStraight(before.events[id].log);
    var log := before.events[id].log;
    var i :| 0 <= i < |log| && log[i].from == Some(FailedRetryable) && log[i].to == DeadLettered;
    assert Continues(before.events[id], after.events[id]);
    assert after.events[id].log[i] == log[i];
  }

  /** Action number k of the run is such a step. */
  ghost predicate SkippedAt(cfg: Config, uploaders: nat, run: seq<Action>, k: nat)
    requires k < |run|
  {
    IsRun(cfg, uploaders, run[..k]) && SkipsRetry(StateAfter(cfg, uploaders, run[..k]), run[k])
  }

  /** A run dead-letters no event from FAILED_RETRYABLE exactly when no action of it is such a step. */
  lemma {:induction false} StraightRunIff(cfg: Config, uploaders: nat, run: seq<Action>)
    requires IsRun(cfg, uploaders, run)
    ensures AllStraight(StateAfter(cfg, uploaders, run).db.events)
            <==> forall k :: 0 <= k < |run| ==> !SkippedAt(cfg, uploaders, run, k)
    decreases |run|
  {
    hide Do, AllStraight, SkipsRetry, IsSoundDb;
    if run == [] {
      NothingAtStart(uploaders);
    } else {
      RunSplits(cfg, uploaders, run);
      var last := |run| - 1;
      var before := run[..last];
      StraightRunIff(cfg, uploaders, before);
      SoundBefore(cfg, uploaders, run);
      forall k | 0 <= k < last ensures SkippedAt(cfg, uploaders, run, k) <==> SkippedAt(cfg, uploaders, before, k) {
        assert before[..k] == run[..k] && before[k] == run[k];
      }
      var s := StateAfter(cfg, uploaders, before);
      assert SkippedAt(cfg, uploaders, run, last) <==> SkipsRetry(s, run[last]);
      if AllStraight(s.db.events) {
        StraightExactlyUntil(cfg, s, run[last]);
      } else {
        CrookedForGood(s.db, StateAfter(cfg, uploaders, run).db);
      }
    }
  }

  lemma NothingAtStart(uploaders: nat)
    ensures AllStraight(Initial(uploaders).db.events)
  {
  }

  lemma SoundBefore(cfg: Config, uploaders: nat, run: seq<Action>)
    requires IsRun(cfg, uploaders, run) && run != []
    ensures IsRun(cfg, uploaders, run[..|run| - 1])
    ensures AllSound(StateAfter(cfg, uploaders, run[..|run| - 1]).db.events)
    ensures DbContinues(StateAfter(cfg, uploaders, run[..|run| - 1]).db, StateAfter(cfg, uploaders, run).db)
  {
    hide Do;
    RunSplits(cfg, uploaders, run);
    TablesSoundInEveryRun(cfg, uploaders, run[..|run| - 1]);
    StepKeepsTables(cfg, StateAfter(cfg, uploaders, run[..|run| - 1]), run[|run| - 1]);
  }

  // --- Timely runs ---

  lemma {:induction false} OnceInOwned(db: Db, batch: seq<Claimed>, i: nat)
    requires IsOwned(db, batch) && i < |batch|
    ensures multiset(Ids(batch))[batch[i].eventId] == 1
    decreases |batch|
  {
    var last := |batch| - 1;
    assert Ids(batch) == Ids(batch[..last]) + [batch[last].eventId];
    if i < last {
      OnceInOwned(db, batch[..last], i);
    } else {
      assert forall j :: 0 <= j < last ==> Ids(batch[..last])[j] != batch[last].eventId;
      assert batch[last].eventId !in Ids(batch[..last]);
    }
  }

  lemma OwnedSkipsNothing(s: System, a: Action)
    requires IsExclusive(s.db, s.uploaders)
    ensures !SkipsRetry(s, a)
  {
    if a.Upload? && a.u < |s.uploaders| {
      var up := s.uploaders[a.u];
      OwnedParts(s.db, up.waiting, up.Batch());
      forall i | 0 <= i < |up.Batch()|
        ensures s.db.Has(up.Batch()[i].eventId, Uploading) && multiset(Ids(up.Batch()))[up.Batch()[i].eventId] == 1
      {
        OnceInOwned(s.db, up.Batch(), i);
      }
    }
  }

  /** With every lease renewed in time there is no such step. */
  lemma StraightInTimelyRuns(cfg: Config, uploaders: nat, run: seq<Action>)
    requires IsRun(cfg, uploaders, run) && IsTimelyRun(cfg, uploaders, run)
    ensures AllStraight(StateAfter(cfg, uploaders, run).db.events)
  {
    hide SkipsRetry;
    StraightRunIff(cfg, uploaders, run);
    forall k | 0 <= k < |run| ensures !SkippedAt(cfg, uploaders, run, k) {
      TimelyPrefixes(cfg, uploaders, run, k);
      OneHolderInTimelyRuns(cfg, uploaders, run[..k]);
      OwnedSkipsNothing(StateAfter(cfg, uploaders, run[..k]), run[k]);
    }
  }

  lemma TimelyPrefixes(cfg: Config, uploaders: nat, run: seq<Action>, k: nat)
    requires IsRun(cfg, uploaders, run) && IsTimelyRun(cfg, uploaders, run) && k <= |run|
    ensures IsRun(cfg, uploaders, run[..k]) && IsTimelyRun(cfg, uploaders, run[..k])
  {
    PastNeverChanges(cfg, uploaders, run, k);
    var before := run[..k];
    forall j | 0 <= j < |before| && IsRun(cfg, uploaders, before[..j]) && before[j].Upload? && before[j].step.Cycle?
      ensures IsTimely(cfg, StateAfter(cfg, uploaders, before[..j]))
    {
      assert before[..j] == run[..j] && before[j] == run[j];
    }
  }
}

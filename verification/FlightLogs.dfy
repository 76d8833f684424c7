/**
 * The log of a row that an uploader holds, whatever every other process does meanwhile: what it was
 * when the row was claimed, then one pair of lines per recorded retry, then one line for the verdict.
 */
module FlightLogs {
  import opened Wrappers
  import opened Status
  import opened Model
  import opened Ledger
  import opened LedgerInvariants
  import opened Transactions
  import opened Delivery
  import opened Outcomes
  import opened Pipeline
  import opened AuditTrail
  import opened Provenance
  import opened LeaseExclusivity
  import opened AttemptBudget

  /** Failed and uploading again, at one time. */
  predicate IsPair(a: LogEntry, b: LogEntry) {
    && a.from == Some(Uploading) && a.to == FailedRetryable && a.reason.Some? && a.reason.value.TransientRequest?
    && b == LogEntry(Some(FailedRetryable), Uploading, None, a.at)
  }

  predicate ArePairs(lines: seq<LogEntry>, n: nat) {
    |lines| == 2 * n && forall i :: 0 <= i < |lines| && i % 2 == 0 ==> IsPair(lines[i], lines[i + 1])
  }

  /** The uploader holds the row, and `n` retries were recorded since it claimed it. */
  predicate HasRetried(up: UploaderState, id: EventId, n: nat) {
    (InBatch(up.waiting, id) && n == 0) || (!up.flight.Idle? && InBatch(up.Batch(), id) && up.flight.attempt == n + 1)
  }

  lemma RetriedIsHeld(up: UploaderState, id: EventId, n: nat)
    requires HasRetried(up, id, n)
    ensures Holds(up, id)
  {
    InBatchConcat(up.waiting, up.Batch(), id);
  }

  // --- One step ---

  /** This action is the claim of the row by this uploader. */
  predicate IsClaimBy(a: Action, u: nat, id: EventId) {
    a.Upload? && a.u == u && a.step.Cycle? && id in a.step.ids
  }

  /** The same row, with the same number of retries, and the same log. */
  predicate IsKept(s: System, next: System, u: nat, id: EventId, n: nat)
    requires u < |s.uploaders|
  {
    HasRetried(s.uploaders[u], id, n) && id in s.db.events && id in next.db.events
    && next.db.events[id].log == s.db.events[id].log
  }

  /** One retry less, and one pair of lines less. */
  predicate IsRetriedNow(s: System, next: System, u: nat, id: EventId, n: nat)
    requires u < |s.uploaders|
  {
    && n >= 1 && HasRetried(s.uploaders[u], id, n - 1) && id in s.db.events && id in next.db.events
    && s.db.events[id].log <= next.db.events[id].log
    && ArePairs(next.db.events[id].log[|s.db.events[id].log|..], 1)
  }

  lemma RetryAddsPair(e: Event, cause: string, now: nat)
    requires e.status == Uploading
    ensures var after := Changed(e, RecordRetry(cause), now).value.log;
            e.log <= after && ArePairs(after[|e.log|..], 1)
  {
    var after := Changed(e, RecordRetry(cause), now).value.log;
    assert after == e.log + [LogEntry(Some(Uploading), FailedRetryable, Some(TransientRequest(cause)), now)]
                    + [LogEntry(Some(FailedRetryable), Uploading, None, now)];
  }

  lemma RetriedRow(db: Db, batch: seq<Claimed>, cause: string, now: nat, id: EventId)
    requires IsOwned(db, batch) && InBatch(batch, id)
    ensures Run(db, RetryOps(db, batch, cause, now)).Some?
    ensures var after := Run(db, RetryOps(db, batch, cause, now)).value;
            && id in db.events && id in after.events && db.events[id].log <= after.events[id].log
            && ArePairs(after.events[id].log[|db.events[id].log|..], 1)
  {
    RetryIsRecorded(db, batch, cause, now);
    var i :| 0 <= i < |batch| && batch[i].eventId == id;
    assert db.Has(batch[i].eventId, Uploading);
    RetryAddsPair(db.events[id], cause, now);
  }

  predicate HasStarted(up: UploaderState) {
    !up.flight.Idle? ==> up.flight.attempt >= 1
  }

  lemma RetryKeeps(cfg: Config, s: System, u: nat, id: EventId, n: nat, db: Db)
    requires u < |s.uploaders| && CanUpload(cfg, s, s.uploaders[u], Retry) && HasStarted(s.uploaders[u])
    requires IsOwned(s.db, s.uploaders[u].Holding()) && Run(s.db, UploadOps(cfg, s, s.uploaders[u], Retry)) == Some(db)
    requires HasRetried(NextUploader(cfg, s, s.uploaders[u], Retry), id, n)
    ensures var next := AfterUpload(cfg, s, u, Retry, db);
            IsKept(s, next, u, id, n) || IsRetriedNow(s, next, u, id, n)
  {
    hide UploadOps, NextUploader, RetryOps, ArePairs;
    var up := s.uploaders[u];
    OwnedParts(s.db, up.waiting, up.Batch());
    RetryOf(cfg, s, up);
    OwnedStepRuns(cfg, s, up, Retry);
    if InBatch(up.Batch(), id) {
      RetriedRow(s.db, up.Batch(), up.flight.why, s.clock, id);
    } else {
      OwnedIsUploading(s.db, up.waiting, id);
    }
  }

  lemma OwnedIsUploading(db: Db, batch: seq<Claimed>, id: EventId)
    requires IsOwned(db, batch) && InBatch(batch, id)
    ensures db.Has(id, Uploading)
  {
  }

  /** Settling and giving up leave what waits, and touch only what they let go of. */
  lemma EndingKeeps(cfg: Config, s: System, u: nat, step: UploadStep, id: EventId, n: nat, db: Db)
    requires u < |s.uploaders| && CanUpload(cfg, s, s.uploaders[u], step) && (step.GiveUp? || step.Settle?)
    requires IsOwned(s.db, s.uploaders[u].Holding()) && Run(s.db, UploadOps(cfg, s, s.uploaders[u], step)) == Some(db)
    requires HasRetried(s.uploaders[u].(flight := Idle), id, n)
    ensures IsKept(s, AfterUpload(cfg, s, u, step, db), u, id, n)
  {
    hide UploadOps, NextUploader, CanUpload;
    var up := s.uploaders[u];
    OwnedParts(s.db, up.waiting, up.Batch());
    OwnedStepRuns(cfg, s, up, step);
    OwnedIsUploading(s.db, up.waiting, id);
  }

  /** A request changes no row, and not the number of the attempt. */
  lemma RequestKeeps(cfg: Config, s: System, u: nat, step: UploadStep, id: EventId, n: nat)
    requires u < |s.uploaders| && CanUpload(cfg, s, s.uploaders[u], step) && IsRequest(step)
    requires IsOwned(s.db, s.uploaders[u].Holding())
    requires HasRetried(NextUploader(cfg, s, s.uploaders[u], step), id, n)
    ensures IsKept(s, AfterUpload(cfg, s, u, step, s.db), u, id, n)
  {
    hide NextUploader;
    AttemptBudget.AfterSending(cfg, s, s.uploaders[u], step);
    assert HasRetried(s.uploaders[u], id, n);
    RetriedIsHeld(s.uploaders[u], id, n);
    OwnedIsUploading(s.db, s.uploaders[u].Holding(), id);
  }

  /** The uploader that acts, other than by a claim. */
  lemma ActingKeeps(cfg: Config, s: System, u: nat, step: UploadStep, id: EventId, n: nat, db: Db)
    requires u < |s.uploaders| && CanUpload(cfg, s, s.uploaders[u], step) && !step.Cycle? && HasStarted(s.uploaders[u])
    requires IsOwned(s.db, s.uploaders[u].Holding()) && Run(s.db, UploadOps(cfg, s, s.uploaders[u], step)) == Some(db)
    requires HasRetried(NextUploader(cfg, s, s.uploaders[u], step), id, n)
    ensures var next := AfterUpload(cfg, s, u, step, db);
            IsKept(s, next, u, id, n) || IsRetriedNow(s, next, u, id, n)
  {
    hide CanUpload, IsKept, IsRetriedNow, AfterUpload;
    if step.Retry? {
      RetryKeeps(cfg, s, u, id, n, db);
    } else if step.GiveUp? || step.Settle? {
      EndingKeeps(cfg, s, u, step, id, n, db);
    } else if IsRequest(step) {
      RequestKeeps(cfg, s, u, step, id, n);
    }
  }

  lemma OthersKeep(s: System, next: System, u: nat, id: EventId, n: nat)
    requires IsExclusive(s.db, s.uploaders) && u < |s.uploaders| && HasRetried(s.uploaders[u], id, n)
    requires s.db.Has(id, Uploading) ==> id in next.db.events && next.db.events[id] == s.db.events[id]
    ensures IsKept(s, next, u, id, n)
  {
    RetriedIsHeld(s.uploaders[u], id, n);
    assert s.db.Has(id, Uploading);
  }

  /** The uploader that claims: what waited waits as it is, or sets out on its first attempt. */
  lemma ClaimingKeeps(cfg: Config, s: System, u: nat, ids: seq<EventId>, locked: set<EventId>, id: EventId, n: nat,
                      db: Db)
    requires AllSound(s.db.events) && IsExclusive(s.db, s.uploaders) && u < |s.uploaders|
    requires CanUpload(cfg, s, s.uploaders[u], Cycle(ids, locked))
    requires forall other :: other in ids ==> !IsHeld(s.uploaders, other)
    requires Run(s.db, UploadOps(cfg, s, s.uploaders[u], Cycle(ids, locked))) == Some(db)
    requires HasRetried(NextUploader(cfg, s, s.uploaders[u], Cycle(ids, locked)), id, n)
    ensures n == 0 && (id in ids || IsKept(s, AfterUpload(cfg, s, u, Cycle(ids, locked), db), u, id, n))
  {
    hide CanUpload, UploadOps, NextUploader, AllSound;
    var up := s.uploaders[u];
    CycleIsIdle(cfg, s, up, ids, locked);
    var claimed, after := ClaimRuns(cfg, s, up, ids, locked);
    FirstAttempts(cfg, s.clock, up, claimed, id, n);
    if InBatch(claimed, id) {
      ClaimedAreListed(cfg, s, ids, claimed, after, id);
    } else {
      assert InBatch(up.waiting, id) && up.Holding() == up.waiting;
      assert Holds(up, id) && IsHeld(s.uploaders, id) && s.db.Has(id, Uploading);
    }
  }

  lemma ClaimedAreListed(cfg: Config, s: System, ids: seq<EventId>, claimed: seq<Claimed>, after: Db, id: EventId)
    requires IsClaimResult(s.db, ids, s.clock, cfg.uploader.maxRowAttempts, cfg.uploader.customerId, claimed, after)
    requires InBatch(claimed, id)
    ensures id in ids
  {
    var i :| 0 <= i < |claimed| && claimed[i].eventId == id;
    assert IsClaimedNow(s.db, ids, s.clock, cfg.uploader.maxRowAttempts, cfg.uploader.customerId, claimed[i], after);
  }

  lemma FirstAttempts(cfg: Config, now: nat, up: UploaderState, claimed: seq<Claimed>, id: EventId, n: nat)
    requires HasRetried(AfterClaiming(cfg, now, up, claimed), id, n)
    ensures n == 0 && (InBatch(up.waiting, id) || InBatch(claimed, id))
  {
    InBatchConcat(up.waiting, claimed, id);
    assert !InBatch([], id);
  }

  predicate HaveStarted(uploaders: seq<UploaderState>) {
    forall u :: 0 <= u < |uploaders| ==> HasStarted(uploaders[u])
  }

  /** Where a held row and its log come from, in one step of any process. */
  lemma StepOrigin(cfg: Config, s: System, a: Action, next: System, u: nat, id: EventId, n: nat)
    requires AllSound(s.db.events) && IsExclusive(s.db, s.uploaders) && HaveStarted(s.uploaders)
    requires IsEnabled(cfg, s, a) && !TakesHeldRow(s, a) && Do(cfg, s, a) == Some(next)
    requires u < |next.uploaders| && HasRetried(next.uploaders[u], id, n)
    ensures u < |s.uploaders|
    ensures IsKept(s, next, u, id, n) || IsRetriedNow(s, next, u, id, n) || (n == 0 && IsClaimBy(a, u, id))
  {
    hide AllSound, HasRetried, IsRetriedNow, UploadOps, NextUploader, CanUpload;
    ExclusiveUntilHeldRowTaken(cfg, s, a);
    var db, raised := StepForm(cfg, s, a);
    if !a.Upload? {
      OthersLeaveUploading(cfg, s, a);
      OnlyDbMatters(cfg, s, a, db);
      SameUploaders(cfg, s, a, db);
      OthersKeep(s, next, u, id, n);
    } else {
      UploadOrigin(cfg, s, a.u, a.step, db, u, id, n);
    }
  }

  lemma SameUploaders(cfg: Config, s: System, a: Action, db: Db)
    requires !a.Upload?
    ensures AfterAction(cfg, s, a, db).uploaders == s.uploaders
  {
  }

  lemma UploadOrigin(cfg: Config, s: System, v: nat, step: UploadStep, db: Db, u: nat, id: EventId, n: nat)
    requires AllSound(s.db.events) && IsExclusive(s.db, s.uploaders) && HaveStarted(s.uploaders)
    requires v < |s.uploaders| && CanUpload(cfg, s, s.uploaders[v], step) && !TakesHeldRow(s, Upload(v, step))
    requires Run(s.db, UploadOps(cfg, s, s.uploaders[v], step)) == Some(db)
    requires u < |s.uploaders| && HasRetried(AfterUpload(cfg, s, v, step, db).uploaders[u], id, n)
    ensures var next := AfterUpload(cfg, s, v, step, db);
            IsKept(s, next, u, id, n) || IsRetriedNow(s, next, u, id, n)
              || (n == 0 && IsClaimBy(Upload(v, step), u, id))
  {
    hide AllSound, HasRetried, IsRetriedNow, UploadOps, NextUploader, CanUpload;
    if u != v {
      OthersUntouched(cfg, s, v, step, db, u, id, n);
    } else if step.Cycle? {
      NoneTaken(s, v, step);
      ClaimingKeeps(cfg, s, v, step.ids, step.locked, id, n, db);
    } else {
      ActingKeeps(cfg, s, v, step, id, n, db);
    }
  }

  lemma NoneTaken(s: System, v: nat, step: UploadStep)
    requires step.Cycle? && !TakesHeldRow(s, Upload(v, step))
    ensures forall other :: other in step.ids ==> !IsHeld(s.uploaders, other)
  {
  }

  /** A row of another uploader. */
  lemma OthersUntouched(cfg: Config, s: System, v: nat, step: UploadStep, db: Db, u: nat, id: EventId, n: nat)
    requires AllSound(s.db.events) && IsExclusive(s.db, s.uploaders)
    requires v < |s.uploaders| && CanUpload(cfg, s, s.uploaders[v], step) && !TakesHeldRow(s, Upload(v, step))
    requires Run(s.db, UploadOps(cfg, s, s.uploaders[v], step)) == Some(db)
    requires u < |s.uploaders| && u != v && HasRetried(s.uploaders[u], id, n)
    ensures IsKept(s, AfterUpload(cfg, s, v, step, db), u, id, n)
  {
    hide AllSound, HasRetried, UploadOps, NextUploader, CanUpload;
    RetriedIsHeld(s.uploaders[u], id, n);
    assert IsHeld(s.uploaders, id) && s.db.Has(id, Uploading) && !Holds(s.uploaders[v], id);
    var up := s.uploaders[v];
    if step.Cycle? {
      NoneTaken(s, v, step);
      var claimed, after := ClaimRuns(cfg, s, up, step.ids, step.locked);
    } else {
      OwnedStepRuns(cfg, s, up, step);
      InBatchConcat(up.waiting, up.Batch(), id);
    }
  }

  // --- Over runs ---

  /** Action j of the run was the claim, and the log is the one it left, then `n` pairs. */
  ghost predicate IsLogSince(cfg: Config, uploaders: nat, run: seq<Action>, j: nat, u: nat, id: EventId,
                             log: seq<LogEntry>, n: nat)
  {
    && j < |run| && IsClaimBy(run[j], u, id) && IsRun(cfg, uploaders, run[..j + 1])
    && var left := StateAfter(cfg, uploaders, run[..j + 1]).db.events;
    && id in left && left[id].log <= log && ArePairs(log[|left[id].log|..], n)
  }

  ghost predicate FollowsClaim(cfg: Config, uploaders: nat, run: seq<Action>, u: nat, id: EventId, log: seq<LogEntry>,
                               n: nat)
  {
    exists j: nat :: IsLogSince(cfg, uploaders, run, j, u, id, log, n)
  }

  lemma MorePairs(base: seq<LogEntry>, log: seq<LogEntry>, longer: seq<LogEntry>, n: nat)
    requires base <= log <= longer && ArePairs(log[|base|..], n) && ArePairs(longer[|log|..], 1)
    ensures ArePairs(longer[|base|..], n + 1)
  {
    var first, last := log[|base|..], longer[|log|..];
    assert longer[|base|..] == first + last;
    forall i | 0 <= i < |first + last| && i % 2 == 0 ensures IsPair((first + last)[i], (first + last)[i + 1]) {
      if i < |first| {
        assert IsPair(first[i], first[i + 1]);
      } else {
        assert IsPair(last[0], last[1]);
      }
    }
  }

  lemma StillFollows(cfg: Config, uploaders: nat, run: seq<Action>, u: nat, id: EventId, log: seq<LogEntry>, n: nat)
    requires run != [] && FollowsClaim(cfg, uploaders, run[..|run| - 1], u, id, log, n)
    ensures FollowsClaim(cfg, uploaders, run, u, id, log, n)
  {
    hide After;
    var before := run[..|run| - 1];
    var j: nat :| IsLogSince(cfg, uploaders, before, j, u, id, log, n);
    assert before[..j + 1] == run[..j + 1] && before[j] == run[j];
    assert IsLogSince(cfg, uploaders, run, j, u, id, log, n);
  }

  lemma FollowsWithPair(cfg: Config, uploaders: nat, run: seq<Action>, u: nat, id: EventId, log: seq<LogEntry>,
                        longer: seq<LogEntry>, n: nat)
    requires FollowsClaim(cfg, uploaders, run, u, id, log, n) && log <= longer && ArePairs(longer[|log|..], 1)
    ensures FollowsClaim(cfg, uploaders, run, u, id, longer, n + 1)
  {
    hide After, ArePairs;
    var j: nat :| IsLogSince(cfg, uploaders, run, j, u, id, log, n);
    MorePairs(StateAfter(cfg, uploaders, run[..j + 1]).db.events[id].log, log, longer, n);
    assert IsLogSince(cfg, uploaders, run, j, u, id, longer, n + 1);
  }

  lemma ClaimStarts(cfg: Config, uploaders: nat, run: seq<Action>, u: nat, id: EventId)
    requires IsRun(cfg, uploaders, run) && run != [] && IsClaimBy(run[|run| - 1], u, id)
    requires id in StateAfter(cfg, uploaders, run).db.events
    ensures FollowsClaim(cfg, uploaders, run, u, id, StateAfter(cfg, uploaders, run).db.events[id].log, 0)
  {
    hide After;
    var last, log := |run| - 1, StateAfter(cfg, uploaders, run).db.events[id].log;
    assert run[..last + 1] == run && log[|log|..] == [];
    assert IsLogSince(cfg, uploaders, run, last, u, id, log, 0);
  }

  lemma StartedInTimelyRuns(cfg: Config, uploaders: nat, run: seq<Action>)
    requires IsRun(cfg, uploaders, run) && IsTimelyRun(cfg, uploaders, run)
    ensures HaveStarted(StateAfter(cfg, uploaders, run).uploaders)
  {
    hide Do, After, RowsFit, EntriesFit;
    BudgetInTimelyRuns(cfg, uploaders, run);
  }

  lemma NoneHeldAtStart(uploaders: nat, u: nat, id: EventId, n: nat)
    requires u < uploaders
    ensures !HasRetried(Initial(uploaders).uploaders[u], id, n)
  {
  }

  /**
   * In every timely run, whatever other processes do: the log of a row that an uploader holds after n
   * recorded retries is the log its claim left, followed by n pairs of lines.
   */
  lemma {:induction false} HeldLogsInTimelyRuns(cfg: Config, uploaders: nat, run: seq<Action>, u: nat, id: EventId,
                                                n: nat)
    requires IsRun(cfg, uploaders, run) && IsTimelyRun(cfg, uploaders, run)
    requires u < |StateAfter(cfg, uploaders, run).uploaders|
    requires HasRetried(StateAfter(cfg, uploaders, run).uploaders[u], id, n)
    ensures id in StateAfter(cfg, uploaders, run).db.events
    ensures FollowsClaim(cfg, uploaders, run, u, id, StateAfter(cfg, uploaders, run).db.events[id].log, n)
    decreases |run|
  {
    hide Do, HasRetried, FollowsClaim, TakesHeldRow, HaveStarted, IsExclusive, IsClaimBy, ArePairs;
    if run == [] {
      NoneHeldAtStart(uploaders, u, id, n);
    } else {
      var before, a := run[..|run| - 1], run[|run| - 1];
      RunSplits(cfg, uploaders, run);
      var s, next := StateAfter(cfg, uploaders, before), StateAfter(cfg, uploaders, run);
      HeldIsThere(cfg, uploaders, run, u, id, n);
      OriginInTimelyRun(cfg, uploaders, run, u, id, n);
      TimelyPrefix(cfg, uploaders, run);
      if IsKept(s, next, u, id, n) {
        HeldLogsInTimelyRuns(cfg, uploaders, before, u, id, n);
        StillFollows(cfg, uploaders, run, u, id, next.db.events[id].log, n);
      } else if IsRetriedNow(s, next, u, id, n) {
        HeldLogsInTimelyRuns(cfg, uploaders, before, u, id, n - 1);
        StillFollows(cfg, uploaders, run, u, id, s.db.events[id].log, n - 1);
        FollowsWithPair(cfg, uploaders, run, u, id, s.db.events[id].log, next.db.events[id].log, n - 1);
      } else {
        ClaimStarts(cfg, uploaders, run, u, id);
      }
    }
  }

  lemma HeldIsThere(cfg: Config, uploaders: nat, run: seq<Action>, u: nat, id: EventId, n: nat)
    requires IsRun(cfg, uploaders, run) && IsTimelyRun(cfg, uploaders, run)
    requires u < |StateAfter(cfg, uploaders, run).uploaders|
    requires HasRetried(StateAfter(cfg, uploaders, run).uploaders[u], id, n)
    ensures StateAfter(cfg, uploaders, run).db.Has(id, Uploading)
  {
    hide Do, After;
    OneHolderInTimelyRuns(cfg, uploaders, run);
    var s := StateAfter(cfg, uploaders, run);
    RetriedIsHeld(s.uploaders[u], id, n);
    OwnedIsUploading(s.db, s.uploaders[u].Holding(), id);
  }

  lemma OriginInTimelyRun(cfg: Config, uploaders: nat, run: seq<Action>, u: nat, id: EventId, n: nat)
    requires IsRun(cfg, uploaders, run) && IsTimelyRun(cfg, uploaders, run) && run != []
    requires u < |StateAfter(cfg, uploaders, run).uploaders|
    requires HasRetried(StateAfter(cfg, uploaders, run).uploaders[u], id, n)
    ensures IsRun(cfg, uploaders, run[..|run| - 1])
    ensures var s, next := StateAfter(cfg, uploaders, run[..|run| - 1]), StateAfter(cfg, uploaders, run);
            && u < |s.uploaders|
            && (IsKept(s, next, u, id, n) || IsRetriedNow(s, next, u, id, n)
                || (n == 0 && IsClaimBy(run[|run| - 1], u, id)))
  {
    hide Do, HasRetried, HaveStarted, IsExclusive, IsClaimBy, IsKept, IsRetriedNow, CanUpload;
    var before, a := run[..|run| - 1], run[|run| - 1];
    RunSplits(cfg, uploaders, run);
    TimelyPrefix(cfg, uploaders, run);
    OneHolderInTimelyRuns(cfg, uploaders, before);
    TablesSoundInEveryRun(cfg, uploaders, before);
    StartedInTimelyRuns(cfg, uploaders, before);
    var s := StateAfter(cfg, uploaders, before);
    if a.Upload? && a.step.Cycle? {
      TimelyClaimsAreSafe(cfg, s, a);
    }
    StepOrigin(cfg, s, a, StateAfter(cfg, uploaders, run), u, id, n);
  }

  /** So for every row of a flight: on attempt k there are k - 1 pairs. */
  lemma FlightLogsInTimelyRuns(cfg: Config, uploaders: nat, run: seq<Action>, u: nat, i: nat)
    requires IsRun(cfg, uploaders, run) && IsTimelyRun(cfg, uploaders, run)
    requires u < |StateAfter(cfg, uploaders, run).uploaders|
    requires i < |StateAfter(cfg, uploaders, run).uploaders[u].Batch()|
    ensures var s := StateAfter(cfg, uploaders, run);
            var id := s.uploaders[u].Batch()[i].eventId;
            && s.uploaders[u].flight.attempt >= 1 && id in s.db.events
            && FollowsClaim(cfg, uploaders, run, u, id, s.db.events[id].log, s.uploaders[u].flight.attempt - 1)
  {
    hide Do, After, FollowsClaim;
    StartedInTimelyRuns(cfg, uploaders, run);
    var up := StateAfter(cfg, uploaders, run).uploaders[u];
    assert InBatch(up.Batch(), up.Batch()[i].eventId);
    HeldLogsInTimelyRuns(cfg, uploaders, run, u, up.Batch()[i].eventId, up.flight.attempt - 1);
  }

  // --- The last line ---

  /** What ends row i of a flight: its own answer, or the verdict on the request. */
  function Ending(flight: Flight, i: nat): Change
    requires !flight.Idle? && i < |flight.batch| && (flight.Answered? ==> |flight.rows| == |flight.batch|)
  {
    match flight
    case Answered(batch, _, _, rows) => RowChange(batch[i], rows[i])
    case Refused(batch, _, _, why) => DeadLetterRow(Permanent, PermanentRequest(why), Some(why), batch[i].conversion)
    case _ =>
      var why := if flight.Failed? then flight.why else "";
      DeadLetterRow(Poison, PoisonRequest(why, flight.attempt), Some(why), flight.batch[i].conversion)
  }

  lemma EndingOps(cfg: Config, s: System, up: UploaderState, step: UploadStep)
    requires CanUpload(cfg, s, up, step) && (step.GiveUp? || step.Settle?) && IsOwned(s.db, up.Batch())
    ensures !up.flight.Idle? && AreBatchOps(UploadOps(cfg, s, up, step), up.Batch(), up.flight.startedAt)
    ensures forall i :: 0 <= i < |up.Batch()| ==> UploadOps(cfg, s, up, step)[i].change == Ending(up.flight, i)
  {
    var f := up.flight;
    if step.Settle? {
      SettleOf(cfg, s, up);
      ApplyOpsOfBatch(f.batch, f.rows, f.startedAt);
    } else {
      GiveUpOf(cfg, s, up);
      if f.Failed? {
        DeadLetterAllOpsOfOwned(s.db, f.batch, Poison, PoisonRequest(f.why, f.attempt), f.why, f.startedAt);
      } else {
        DeadLetterAllOpsOfOwned(s.db, f.batch, Permanent, PermanentRequest(f.why), f.why, f.startedAt);
      }
    }
  }

  /** The step that ends an owned flight commits and adds exactly one line to the log of each of its rows. */
  lemma EndingAddsOneLine(cfg: Config, s: System, u: nat, step: UploadStep, i: nat)
    requires u < |s.uploaders| && CanUpload(cfg, s, s.uploaders[u], step) && (step.GiveUp? || step.Settle?)
    requires IsOwned(s.db, s.uploaders[u].Batch()) && i < |s.uploaders[u].Batch()|
    ensures var up := s.uploaders[u];
            var id, tx := up.Batch()[i].eventId, Run(s.db, UploadOps(cfg, s, up, step));
            && tx.Some? && id in s.db.events && id in tx.value.events
            && !up.flight.Idle? && (up.flight.Answered? ==> |up.flight.rows| == |up.flight.batch|)
            && EndsWith(s.db.events[id], tx.value.events[id], Ending(up.flight, i), up.flight.startedAt)
  {
    hide UploadOps, Changed, EndsWith;
    var up := s.uploaders[u];
    EndingOps(cfg, s, up, step);
    OwnedBatchRuns(s.db, up.Batch(), UploadOps(cfg, s, up, step), up.flight.startedAt);
    assert s.db.Has(up.Batch()[i].eventId, Uploading);
    var id, ops := up.Batch()[i].eventId, UploadOps(cfg, s, up, step);
    EndingLine(s.db.events[id], ops[i].change, up.flight.startedAt);
  }

  lemma EndingLine(e: Event, change: Change, now: nat)
    requires e.status == Uploading && IsUploadChange(change) && !change.RecordRetry?
    ensures Changed(e, change, now).Some? && EndsWith(e, Changed(e, change, now).value, change, now)
  {
  }

  /** One line more, from UPLOADING to the status the change calls for. */
  predicate EndsWith(before: Event, after: Event, change: Change, now: nat) {
    && |after.log| == |before.log| + 1 && before.log <= after.log
    && var line := after.log[|before.log|];
    && line.from == Some(Uploading) && line.to == after.status == FinalStatus(change) && line.at == now
    && after.attemptCount == before.attemptCount
  }

  // --- What the last step leaves ---

  /** The batch in flight when it is given up: over its last failure, or over the refusal of the request. */
  predicate IsGivenUp(before: Db, after: Db, flight: Flight) {
    match flight
    case Failed(batch, attempt, startedAt, why) =>
      forall i :: 0 <= i < |batch| ==>
        IsCondemned(after, |before.dead|, batch[i], Poison, PoisonRequest(why, attempt), why, startedAt)
    case Refused(batch, _, startedAt, why) =>
      forall i :: 0 <= i < |batch| ==>
        IsCondemned(after, |before.dead|, batch[i], Permanent, PermanentRequest(why), why, startedAt)
    case _ => false
  }

  lemma HeldIsOwned(cfg: Config, uploaders: nat, run: seq<Action>, u: nat)
    requires IsRun(cfg, uploaders, run) && IsTimelyRun(cfg, uploaders, run)
    requires u < |StateAfter(cfg, uploaders, run).uploaders|
    ensures var s := StateAfter(cfg, uploaders, run); IsOwned(s.db, s.uploaders[u].Batch())
  {
    OneHolderInTimelyRuns(cfg, uploaders, run);
    var up := StateAfter(cfg, uploaders, run).uploaders[u];
    OwnedParts(StateAfter(cfg, uploaders, run).db, up.waiting, up.Batch());
  }

  /** In every timely run, settling an answered batch answers every row of it on its own. */
  lemma SettledInTimelyRuns(cfg: Config, uploaders: nat, run: seq<Action>, u: nat) returns (next: System)
    requires IsRun(cfg, uploaders, run) && IsTimelyRun(cfg, uploaders, run)
    requires var s := StateAfter(cfg, uploaders, run);
             u < |s.uploaders| && CanUpload(cfg, s, s.uploaders[u], Settle)
    ensures var s := StateAfter(cfg, uploaders, run);
            var flight := s.uploaders[u].flight;
            && Do(cfg, s, Upload(u, Settle)) == Some(next) && next.uploaders[u].flight.Idle?
            && flight.Answered? && |flight.rows| == |flight.batch|
            && forall i :: 0 <= i < |flight.batch| ==>
                 IsAnswered(next.db, |s.db.dead|, flight.batch[i], flight.rows[i], flight.startedAt)
  {
    hide IsAnswered, IsOwned;
    var s := StateAfter(cfg, uploaders, run);
    var up := s.uploaders[u];
    HeldIsOwned(cfg, uploaders, run, u);
    EveryRowIsAnswered(s.db, up.flight.batch, up.flight.rows, up.flight.startedAt);
    next := SettleStep(cfg, s, u);
  }

  lemma SettleStep(cfg: Config, s: System, u: nat) returns (next: System)
    requires u < |s.uploaders| && s.uploaders[u].flight.Answered?
    requires var f := s.uploaders[u].flight;
             |f.rows| == |f.batch| && ApplyTx(s.db, f.batch, f.rows, f.startedAt).Some?
    ensures Do(cfg, s, Upload(u, Settle)) == Some(next)
    ensures var f := s.uploaders[u].flight;
            next.db == ApplyTx(s.db, f.batch, f.rows, f.startedAt).value.0
    ensures u < |next.uploaders| && next.uploaders[u].flight.Idle?
  {
    hide ApplyOps;
    SettleOf(cfg, s, s.uploaders[u]);
    var db := Run(s.db, UploadOps(cfg, s, s.uploaders[u], Settle)).value;
    UploadCommits(cfg, s, u, Settle, db);
    next := AfterUpload(cfg, s, u, Settle, db);
  }

  /** In every timely run, giving a batch up condemns every row of it under the verdict on the request. */
  lemma GivenUpInTimelyRuns(cfg: Config, uploaders: nat, run: seq<Action>, u: nat) returns (next: System)
    requires IsRun(cfg, uploaders, run) && IsTimelyRun(cfg, uploaders, run)
    requires var s := StateAfter(cfg, uploaders, run);
             u < |s.uploaders| && CanUpload(cfg, s, s.uploaders[u], GiveUp)
    ensures var s := StateAfter(cfg, uploaders, run);
            && Do(cfg, s, Upload(u, GiveUp)) == Some(next) && IsGivenUp(s.db, next.db, s.uploaders[u].flight)
  {
    hide IsCondemned, IsOwned, DeadLetterAllOps;
    var s := StateAfter(cfg, uploaders, run);
    var f := s.uploaders[u].flight;
    HeldIsOwned(cfg, uploaders, run, u);
    if f.Failed? {
      EveryRowIsCondemned(s.db, f.batch, Poison, PoisonRequest(f.why, f.attempt), f.why, f.startedAt, f.attempt);
    } else {
      EveryRowIsCondemned(s.db, f.batch, Permanent, PermanentRequest(f.why), f.why, f.startedAt, f.attempt);
    }
    next := GiveUpStep(cfg, s, u);
  }

  lemma GiveUpStep(cfg: Config, s: System, u: nat) returns (next: System)
    requires u < |s.uploaders| && (s.uploaders[u].flight.Failed? || s.uploaders[u].flight.Refused?)
    requires Run(s.db, UploadOps(cfg, s, s.uploaders[u], GiveUp)).Some?
    ensures Do(cfg, s, Upload(u, GiveUp)) == Some(next)
    ensures var f := s.uploaders[u].flight;
            Run(s.db, if f.Failed?
                      then DeadLetterAllOps(s.db, f.batch, Poison, PoisonRequest(f.why, f.attempt), f.why, f.startedAt)
                      else DeadLetterAllOps(s.db, f.batch, Permanent, PermanentRequest(f.why), f.why, f.startedAt))
            == Some(next.db)
  {
    hide DeadLetterAllOps;
    GiveUpOf(cfg, s, s.uploaders[u]);
    var db := Run(s.db, UploadOps(cfg, s, s.uploaders[u], GiveUp)).value;
    UploadCommits(cfg, s, u, GiveUp, db);
    next := AfterUpload(cfg, s, u, GiveUp, db);
  }
}

/** The ledger in every run: sound tables, a log that explains every row, and a past that never changes. */
module AuditTrail {
  import opened Wrappers
  import opened Status
  import opened Model
  import opened Ledger
  import opened LedgerInvariants
  import opened Transactions
  import opened Processor
  import opened Pipeline

  /** Calls that neither add a row nor write digests. */
  predicate AreOrdinary(ops: seq<Op>) {
    forall i :: 0 <= i < |ops| ==> ops[i].Replay? || ops[i].Abort? || (ops[i].Update? && !ops[i].change.Process?)
  }

  predicate AreDeadLetterings(ops: seq<Op>, ids: seq<EventId>) {
    forall i :: 0 <= i < |ops| ==> ops[i].Update? && ops[i].change.DeadLetterRow? && ops[i].id in ids
  }

  lemma {:induction false} CeilingOpsDeadLetter(db: Db, ids: seq<EventId>, now: nat, maxRowAttempts: nat,
                                                customerId: string)
    requires HaveConversions(db, ids)
    ensures AreDeadLetterings(CeilingOps(db, ids, now, maxRowAttempts, customerId), ids)
    decreases |ids|
  {
    if ids != [] {
      var last := |ids| - 1;
      var before := CeilingOps(db, ids[..last], now, maxRowAttempts, customerId);
      CeilingOpsDeadLetter(db, ids[..last], now, maxRowAttempts, customerId);
      assert AreDeadLetterings(before, ids[..last]);
      forall i | 0 <= i < |before| ensures before[i].Update? && before[i].change.DeadLetterRow? && before[i].id in ids {
        assert before[i].id in ids[..last];
      }
      assert AreDeadLetterings(before, ids);
      var e := db.events[ids[last]];
      if e.attemptCount > maxRowAttempts {
        var op := Update(ids[last], CeilingChange(ids[last], e, customerId), now);
        assert CeilingOps(db, ids, now, maxRowAttempts, customerId) == before + [op];
        assert AreDeadLetterings(before + [op], ids);
      }
    }
  }

  /** Only ingest adds rows, and only the worker writes digests. */
  lemma OtherActionsAreOrdinary(cfg: Config, s: System, a: Action)
    requires !a.ProcessDelivery? && !a.IngestLead? && !a.IngestInvalid?
    ensures AreOrdinary(LedgerOps(cfg, s, a))
  {
    hide ClaimedTables;
    if a.Upload? && a.u < |s.uploaders| && a.step.Cycle? {
      var mid := ClaimedTables(s.db, a.step.ids, s.clock);
      if HaveConversions(mid, a.step.ids) {
        var ceiling := CeilingOps(mid, a.step.ids, s.clock, cfg.uploader.maxRowAttempts, cfg.uploader.customerId);
        CeilingOpsDeadLetter(mid, a.step.ids, s.clock, cfg.uploader.maxRowAttempts, cfg.uploader.customerId);
        assert LedgerOps(cfg, s, a) == ClaimOps(a.step.ids, s.clock) + ceiling;
        assert forall i :: 0 <= i < |ceiling| ==> ceiling[i].Update? && ceiling[i].change.DeadLetterRow?;
      }
    }
  }

  lemma OpsAreLicensed(cfg: Config, s: System, a: Action)
    requires IsSoundDb(s.db)
    ensures forall op :: op in LedgerOps(cfg, s, a) ==> Licensed(s.db, op)
  {
    if a.ProcessDelivery? {
      if a.ack in s.queue.inflight {
        var message := s.queue.inflight[a.ack].message;
        if s.db.Has(message.eventId, Queued) {
          var e := s.db.events[message.eventId];
          assert IsSound(e);
          if Decide(cfg.lib, e, message.identifiers).Process? {
            ProcessingIsJustified(cfg.lib, e, message.identifiers);
          }
        }
      }
    } else if !a.IngestLead? && !a.IngestInvalid? {
      OtherActionsAreOrdinary(cfg, s, a);
    }
  }

  lemma StepKeepsTables(cfg: Config, s: System, a: Action)
    requires IsSoundDb(s.db) && Do(cfg, s, a).Some?
    ensures IsSoundDb(Do(cfg, s, a).value.db) && DbContinues(s.db, Do(cfg, s, a).value.db)
  {
    StepRunsLedger(cfg, s, a);
    Unchanged(s.db);
    if Run(s.db, LedgerOps(cfg, s, a)).Some? {
      OpsAreLicensed(cfg, s, a);
      RunKeepsSound(s.db, LedgerOps(cfg, s, a));
    }
  }

  /** In every run the tables are sound. */
  lemma {:induction false} TablesSoundInEveryRun(cfg: Config, uploaders: nat, run: seq<Action>)
    requires IsRun(cfg, uploaders, run)
    ensures IsSoundDb(StateAfter(cfg, uploaders, run).db)
    decreases |run|
  {
    if run != [] {
      RunSplits(cfg, uploaders, run);
      var before := run[..|run| - 1];
      TablesSoundInEveryRun(cfg, uploaders, before);
      StepKeepsTables(cfg, StateAfter(cfg, uploaders, before), run[|run| - 1]);
    }
  }

  /**
   * Whatever happens after the first k actions, every event keeps the columns and the log lines it had
   * then, and every dead-letter record keeps its content; a record once replayed stays replayed.
   */
  lemma {:induction false} PastNeverChanges(cfg: Config, uploaders: nat, run: seq<Action>, k: nat)
    requires IsRun(cfg, uploaders, run) && k <= |run|
    ensures IsRun(cfg, uploaders, run[..k])
    ensures DbContinues(StateAfter(cfg, uploaders, run[..k]).db, StateAfter(cfg, uploaders, run).db)
    decreases |run|
  {
    if k == |run| {
      assert run[..k] == run;
      Unchanged(StateAfter(cfg, uploaders, run).db);
    } else {
      RunSplits(cfg, uploaders, run);
      var before := run[..|run| - 1];
      assert before[..k] == run[..k];
      PastNeverChanges(cfg, uploaders, before, k);
      TablesSoundInEveryRun(cfg, uploaders, before);
      StepKeepsTables(cfg, StateAfter(cfg, uploaders, before), run[|run| - 1]);
      ContinuesTransitively(StateAfter(cfg, uploaders, run[..k]).db, StateAfter(cfg, uploaders, before).db,
                            StateAfter(cfg, uploaders, run).db);
    }
  }

  // --- What soundness says about one row ---

  lemma {:induction false} NoAttemptNoTime(log: seq<LogEntry>)
    ensures LastAttemptIn(log).None? <==> AttemptsIn(log) == 0
  {
    if log != [] {
      NoAttemptNoTime(log[..|log| - 1]);
    }
  }

  /** The attempt counter and its time are null together. */
  lemma NullTimeIffNoAttempt(e: Event)
    requires IsSound(e)
    ensures e.lastAttemptAt.None? <==> e.attemptCount == 0
  {
    NoAttemptNoTime(e.log);
  }

  /** Such a row shows an attempt in its log. */
  lemma AttemptIsLogged(e: Event)
    requires IsSound(e) && e.status in {Uploading, FailedRetryable}
    ensures e.lastAttemptAt.Some? && e.attemptCount >= 1 && LastAttemptIn(e.log) == e.lastAttemptAt
  {
    NullTimeIffNoAttempt(e);
    var last := |e.log| - 1;
    assert e.log[last].to == e.status && e.log[0].to == Received;
    if e.status == FailedRetryable {
      assert IsLegalEntry(e.log[last]) && e.log[last].from == Some(Uploading);
      var before := e.log[..last];
      assert before[|before| - 1].to == Uploading;
      assert LastAttemptIn(before).Some?;
      assert LastAttemptIn(e.log) == LastAttemptIn(before);
    } else {
      assert LastAttemptIn(e.log) == Some(e.log[last].at);
    }
  }

  /**
   * Exactly which rows a claim may take: a PROCESSED row at any time, whatever its columns; a row waiting
   * for another attempt, or left in UPLOADING, exactly when the delay for its state has passed since the
   * latest attempt in its log, which there always is; and a row in any other state never.
   */
  lemma NoRowIsStranded(e: Event, retryAfter: nat, staleAfter: nat, now: nat)
    requires IsSound(e)
    ensures e.status in {Uploading, FailedRetryable} ==> LastAttemptIn(e.log).Some? && e.attemptCount >= 1
    ensures Eligible(e, now, retryAfter, staleAfter)
            <==> match e.status
                 case Processed => true
                 case FailedRetryable => LastAttemptIn(e.log).value + retryAfter <= now
                 case Uploading => LastAttemptIn(e.log).value + staleAfter <= now
                 case _ => false
  {
    if e.status in {Uploading, FailedRetryable} {
      AttemptIsLogged(e);
    }
  }
}

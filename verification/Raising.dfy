/** Exactly which steps of the pipeline raise: which transactions an exception undoes, and which uploaders it ends. */
module Raising {
  import opened Wrappers
  import opened Status
  import opened Model
  import opened Ledger
  import opened LedgerInvariants
  import opened Transactions
  import opened Settlement
  import opened Pipeline
  import opened LeaseExclusivity

  /**
   * A retry of a batch with a row that is not UPLOADING any more, giving up a batch with a row that is
   * neither UPLOADING nor FAILED_RETRYABLE, or settling one with an event that cannot take its verdicts.
   */
  predicate MustRaise(s: System, a: Action) {
    && a.Upload? && a.u < |s.uploaders|
    && var up := s.uploaders[a.u];
    match a.step
    case Retry =>
      exists i :: 0 <= i < |up.Batch()| && up.Batch()[i].eventId in s.db.events
                  && !s.db.Has(up.Batch()[i].eventId, Uploading)
    case GiveUp => exists i :: 0 <= i < |up.Batch()| && !CanGiveUp(s.db, up.Batch()[i].eventId)
    case Settle =>
      up.flight.Answered? && |up.flight.rows| == |up.flight.batch|
      && !CanSettleAll(s.db, up.flight.batch, up.flight.rows, up.flight.startedAt)
    case _ => false
  }

  lemma UploadRaisesIff(cfg: Config, s: System, u: nat, step: UploadStep)
    requires AllSound(s.db.events) && u < |s.uploaders| && CanUpload(cfg, s, s.uploaders[u], step)
    ensures Run(s.db, UploadOps(cfg, s, s.uploaders[u], step)) == None <==> MustRaise(s, Upload(u, step))
  {
    var up := s.uploaders[u];
    match step {
      case Cycle(ids, locked) => ClaimNeverRaises(cfg, s, up, ids, locked);
      case Retry => RetryRaisesIff(cfg, s, up);
      case GiveUp => GiveUpRaisesIff(cfg, s, up);
      case Settle => SettleRaisesIff(cfg, s, up);
      case _ => assert UploadOps(cfg, s, up, step) == [];
    }
  }

  lemma ClaimNeverRaises(cfg: Config, s: System, up: UploaderState, ids: seq<EventId>, locked: set<EventId>)
    requires AllSound(s.db.events) && CanUpload(cfg, s, up, Cycle(ids, locked))
    ensures Run(s.db, UploadOps(cfg, s, up, Cycle(ids, locked))).Some?
  {
    hide UploadOps, CanUpload;
    var claimed, after := ClaimRuns(cfg, s, up, ids, locked);
  }

  lemma RetryRaisesIff(cfg: Config, s: System, up: UploaderState)
    requires up.flight.Failed? && up.flight.attempt < cfg.uploader.maxAttempts
    ensures Run(s.db, UploadOps(cfg, s, up, Retry)) == None
            <==> exists i :: 0 <= i < |up.Batch()| && up.Batch()[i].eventId in s.db.events
                             && !s.db.Has(up.Batch()[i].eventId, Uploading)
  {
    hide UploadOps, RetryOps;
    RetryOf(cfg, s, up);
    RetryCommitsIff(s.db, up.Batch(), up.flight.why, s.clock);
  }

  lemma SettleRaisesIff(cfg: Config, s: System, up: UploaderState)
    requires up.flight.Answered? && |up.flight.rows| == |up.flight.batch|
    ensures Run(s.db, UploadOps(cfg, s, up, Settle)) == None
            <==> !CanSettleAll(s.db, up.flight.batch, up.flight.rows, up.flight.startedAt)
  {
    hide UploadOps, CanSettleAll;
    SettleOf(cfg, s, up);
    SettlementCommitsIff(s.db, up.flight.batch, up.flight.rows, up.flight.startedAt);
  }

  lemma GiveUpRaisesIff(cfg: Config, s: System, up: UploaderState)
    requires up.flight.Failed? || up.flight.Refused?
    ensures Run(s.db, UploadOps(cfg, s, up, GiveUp)) == None
            <==> exists i :: 0 <= i < |up.Batch()| && !CanGiveUp(s.db, up.Batch()[i].eventId)
  {
    hide UploadOps, DeadLetterAllOps;
    GiveUpOf(cfg, s, up);
    var f := up.flight;
    if f.Failed? {
      GivingUpCommitsIff(s.db, up.Batch(), Poison, PoisonRequest(f.why, f.attempt), f.why, f.startedAt);
    } else {
      GivingUpCommitsIff(s.db, up.Batch(), Permanent, PermanentRequest(f.why), f.why, f.startedAt);
    }
  }

  /** In sound tables, these are the only steps of any process whose transaction raises. */
  lemma RaisesExactlyWhen(cfg: Config, s: System, a: Action)
    requires AllSound(s.db.events) && IsEnabled(cfg, s, a)
    ensures Run(s.db, LedgerOps(cfg, s, a)) == None <==> MustRaise(s, a)
  {
    if a.Upload? {
      UploadRaisesIff(cfg, s, a.u, a.step);
    } else {
      OthersLeaveUploading(cfg, s, a);
    }
  }
}

/** What the processor let through, the platform never refuses over identifiers or consent. */
module AcceptableRows {
  import opened Wrappers
  import opened Status
  import opened Model
  import opened Ledger
  import opened LedgerInvariants
  import opened ConversionRows
  import opened Platform
  import opened Pipeline
  import opened AuditTrail
  import opened LeaseExclusivity

  /** Whatever conversion actions the platform knows, it has nothing against the row's identifiers or consent. */
  ghost predicate IsAcceptable(row: ConversionRow) {
    forall knownActions :: !RefusedForIdentifiers(row, knownActions)
  }

  /** Digests and consent that the ledger promises for a hashed event make its row acceptable. */
  lemma HashedRowIsAcceptable(id: EventId, e: Event, customerId: string)
    requires IsSound(e) && e.status in HASHED_STATES
    ensures e.facts.conversion.Some? && IsAcceptable(ConversionOf(id, e, customerId))
  {
    forall knownActions ensures !RefusedForIdentifiers(ConversionOf(id, e, customerId), knownActions) {
      IdentifierRefusalIff(id, e, customerId, knownActions);
    }
  }

  ghost predicate HoldAcceptable(uploaders: seq<UploaderState>) {
    forall u, i :: 0 <= u < |uploaders| && 0 <= i < |uploaders[u].Holding()| ==>
      IsAcceptable(uploaders[u].Holding()[i].conversion)
  }

  /** An uploader's rows come from its claim; between claims it only ever lets go of them. */
  predicate HoldsNoMore(before: UploaderState, after: UploaderState) {
    forall i :: 0 <= i < |after.Holding()| ==> after.Holding()[i] in before.Holding()
  }

  lemma StepHoldsNoMore(cfg: Config, s: System, up: UploaderState, step: UploadStep)
    requires CanUpload(cfg, s, up, step) && !step.Cycle?
    ensures HoldsNoMore(up, NextUploader(cfg, s, up, step))
  {
    var next := NextUploader(cfg, s, up, step);
    if step.GiveUp? || step.Settle? || step.Crash? {
      forall i | 0 <= i < |next.Holding()| ensures next.Holding()[i] in up.Holding() {
        assert up.Holding()[i] == next.Holding()[i];
      }
    } else {
      assert next.Holding() == up.Holding();
    }
  }

  ghost predicate AllAcceptable(batch: seq<Claimed>) {
    forall i :: 0 <= i < |batch| ==> IsAcceptable(batch[i].conversion)
  }

  lemma ClaimedAreAcceptable(cfg: Config, s: System, ids: seq<EventId>, claimed: seq<Claimed>, after: Db)
    requires IsClaimResult(s.db, ids, s.clock, cfg.uploader.maxRowAttempts, cfg.uploader.customerId, claimed, after)
    requires AllSound(after.events)
    ensures AllAcceptable(claimed)
  {
    forall i | 0 <= i < |claimed| ensures IsAcceptable(claimed[i].conversion) {
      var k := cfg.uploader;
      assert IsClaimedNow(s.db, ids, s.clock, k.maxRowAttempts, k.customerId, claimed[i], after);
      assert after.Has(claimed[i].eventId, Uploading);
      assert IsSound(after.events[claimed[i].eventId]);
      HashedRowIsAcceptable(claimed[i].eventId, after.events[claimed[i].eventId], k.customerId);
    }
  }

  lemma AddingHoldsAcceptable(uploaders: seq<UploaderState>, u: nat, next: UploaderState, claimed: seq<Claimed>)
    requires HoldAcceptable(uploaders) && u < |uploaders| && next.Holding() == uploaders[u].Holding() + claimed
    requires AllAcceptable(claimed)
    ensures HoldAcceptable(uploaders[u := next])
  {
    var held := uploaders[u].Holding();
    forall i | 0 <= i < |held + claimed| ensures IsAcceptable((held + claimed)[i].conversion) {
      assert (held + claimed)[i] == if i < |held| then held[i] else claimed[i - |held|];
    }
  }

  lemma ClaimAddsAcceptable(cfg: Config, s: System, up: UploaderState, ids: seq<EventId>, locked: set<EventId>, db: Db)
    returns (claimed: seq<Claimed>)
    requires AllSound(s.db.events) && CanUpload(cfg, s, up, Cycle(ids, locked))
    requires Run(s.db, UploadOps(cfg, s, up, Cycle(ids, locked))) == Some(db) && AllSound(db.events)
    ensures AllAcceptable(claimed) && NextUploader(cfg, s, up, Cycle(ids, locked)).Holding() == up.Holding() + claimed
  {
    var after;
    claimed, after := ClaimRuns(cfg, s, up, ids, locked);
    ClaimedAreAcceptable(cfg, s, ids, claimed, after);
    ClaimedAreAdded(cfg, s.clock, up, claimed);
  }

  lemma ClaimHoldsAcceptable(cfg: Config, s: System, u: nat, ids: seq<EventId>, locked: set<EventId>, db: Db)
    requires AllSound(s.db.events) && HoldAcceptable(s.uploaders) && u < |s.uploaders|
    requires CanUpload(cfg, s, s.uploaders[u], Cycle(ids, locked))
    requires Run(s.db, UploadOps(cfg, s, s.uploaders[u], Cycle(ids, locked))) == Some(db) && AllSound(db.events)
    ensures HoldAcceptable(s.uploaders[u := NextUploader(cfg, s, s.uploaders[u], Cycle(ids, locked))])
  {
    var claimed := ClaimAddsAcceptable(cfg, s, s.uploaders[u], ids, locked, db);
    AddingHoldsAcceptable(s.uploaders, u, NextUploader(cfg, s, s.uploaders[u], Cycle(ids, locked)), claimed);
  }

  lemma LettingGoHoldsAcceptable(uploaders: seq<UploaderState>, u: nat, next: UploaderState)
    requires HoldAcceptable(uploaders) && u < |uploaders| && HoldsNoMore(uploaders[u], next)
    ensures HoldAcceptable(uploaders[u := next])
  {
    forall i | 0 <= i < |next.Holding()| ensures IsAcceptable(next.Holding()[i].conversion) {
      var j :| 0 <= j < |uploaders[u].Holding()| && uploaders[u].Holding()[j] == next.Holding()[i];
    }
  }

  lemma UploadHoldsAcceptable(cfg: Config, s: System, u: nat, step: UploadStep, db: Db)
    requires AllSound(s.db.events) && HoldAcceptable(s.uploaders) && u < |s.uploaders|
    requires CanUpload(cfg, s, s.uploaders[u], step)
    requires Run(s.db, UploadOps(cfg, s, s.uploaders[u], step)) == Some(db) && (step.Cycle? ==> AllSound(db.events))
    ensures HoldAcceptable(s.uploaders[u := NextUploader(cfg, s, s.uploaders[u], step)])
  {
    if step.Cycle? {
      ClaimHoldsAcceptable(cfg, s, u, step.ids, step.locked, db);
    } else {
      StepHoldsNoMore(cfg, s, s.uploaders[u], step);
      LettingGoHoldsAcceptable(s.uploaders, u, NextUploader(cfg, s, s.uploaders[u], step));
    }
  }

  lemma StepHoldsAcceptable(cfg: Config, s: System, a: Action)
    requires AllSound(s.db.events) && HoldAcceptable(s.uploaders) && Do(cfg, s, a).Some?
    requires AllSound(Do(cfg, s, a).value.db.events)
    ensures HoldAcceptable(Do(cfg, s, a).value.uploaders)
  {
    hide NextUploader, UploadOps, CanUpload, IsAcceptable, AllSound;
    var db, raised := StepForm(cfg, s, a);
    if a.Upload? {
      if raised {
        LettingGoHoldsAcceptable(s.uploaders, a.u, FRESH_UPLOADER);
      } else {
        UploadHoldsAcceptable(cfg, s, a.u, a.step, db);
      }
    }
  }

  /** In every run, no row that any uploader holds or sends can be refused over identifiers or consent. */
  lemma {:induction false} AcceptableInEveryRun(cfg: Config, uploaders: nat, run: seq<Action>)
    requires IsRun(cfg, uploaders, run)
    ensures HoldAcceptable(StateAfter(cfg, uploaders, run).uploaders)
    decreases |run|
  {
    if run == [] {
      assert forall u :: 0 <= u < uploaders ==> Initial(uploaders).uploaders[u].Holding() == [];
    } else {
      RunSplits(cfg, uploaders, run);
      var before := run[..|run| - 1];
      AcceptableInEveryRun(cfg, uploaders, before);
      TablesSoundInEveryRun(cfg, uploaders, before);
      TablesSoundInEveryRun(cfg, uploaders, run);
      StepHoldsAcceptable(cfg, StateAfter(cfg, uploaders, before), run[|run| - 1]);
    }
  }
}

/** The books between gateway and platform: every acceptance of an event is accounted for, in every run. */
module Acceptance {
  import opened Wrappers
  import opened Status
  import opened Model
  import opened Ledger
  import opened Transactions
  import opened Client
  import opened Pipeline
  import opened AuditTrail
  import opened Provenance

  /** Acceptances that some uploader has been told of and not settled yet. */
  function Pending(uploaders: seq<UploaderState>): multiset<EventId> {
    if uploaders == [] then multiset{}
    else
      var last := |uploaders| - 1;
      Pending(uploaders[..last]) + multiset(uploaders[last].Unsettled())
  }

  function UploadedBit(db: Db, id: EventId): nat {
    if db.Has(id, Uploaded) then 1 else 0
  }

  /** Acceptances = uploaded or not, plus the lost ones, plus the pending ones. */
  ghost predicate BooksBalance(s: System) {
    forall id :: s.accepted[id] == UploadedBit(s.db, id) + s.lost[id] + Pending(s.uploaders)[id]
  }

  lemma {:induction false} PendingUpdate(uploaders: seq<UploaderState>, u: nat, up: UploaderState)
    requires u < |uploaders|
    ensures forall id ::
              Pending(uploaders[u := up])[id] + multiset(uploaders[u].Unsettled())[id]
              == Pending(uploaders)[id] + multiset(up.Unsettled())[id]
    decreases |uploaders|
  {
    var last := |uploaders| - 1;
    if u == last {
      assert uploaders[u := up][..last] == uploaders[..last];
    } else {
      assert uploaders[u := up][..last] == uploaders[..last][u := up];
      PendingUpdate(uploaders[..last], u, up);
    }
  }

  // --- How a transaction changes the set of uploaded events ---

  function MarksUploaded(op: Op, id: EventId): nat {
    if op.Update? && op.id == id && op.change.MarkUploaded? then 1 else 0
  }

  function CountUploads(ops: seq<Op>, id: EventId): nat {
    if ops == [] then 0 else MarksUploaded(ops[0], id) + CountUploads(ops[1..], id)
  }

  /** UPLOADED is entered by its own change only, from another state, and never left. */
  lemma {:induction false} RunCountsUploads(db: Db, ops: seq<Op>, id: EventId)
    requires Run(db, ops).Some?
    ensures UploadedBit(Run(db, ops).value, id) == UploadedBit(db, id) + CountUploads(ops, id)
    decreases |ops|
  {
    if ops != [] {
      var next := Step(db, ops[0]).value;
      StepCountsUploads(db, ops[0], id);
      RunCountsUploads(next, ops[1..], id);
    }
  }

  lemma StepCountsUploads(db: Db, op: Op, id: EventId)
    requires Step(db, op).Some?
    ensures UploadedBit(Step(db, op).value, id) == UploadedBit(db, id) + MarksUploaded(op, id)
  {
  }

  lemma {:induction false} NoMarksNoUploads(ops: seq<Op>, id: EventId)
    requires forall i :: 0 <= i < |ops| ==> MarksUploaded(ops[i], id) == 0
    ensures CountUploads(ops, id) == 0
  {
    if ops != [] {
      NoMarksNoUploads(ops[1..], id);
    }
  }

  lemma {:induction false} SettlingCountsAccepted(batch: seq<Claimed>, rows: seq<RowResult>, now: nat, id: EventId)
    requires |batch| == |rows|
    ensures CountUploads(ApplyOps(batch, rows, now), id) == multiset(AcceptedIds(batch, rows))[id]
    decreases |batch|
  {
    if batch != [] {
      var ops := ApplyOps(batch, rows, now);
      assert ops[1..] == ApplyOps(batch[1..], rows[1..], now);
      SettlingCountsAccepted(batch[1..], rows[1..], now, id);
      var head := if rows[0].ok then [batch[0].eventId] else [];
      var rest := AcceptedIds(batch[1..], rows[1..]);
      assert multiset(head + rest) == multiset(head) + multiset(rest);
    }
  }

  lemma {:induction false} AnswerTellsAccepted(batch: seq<Claimed>, verdicts: seq<Option<string>>, rows: seq<RowResult>)
    requires |batch| == |verdicts| == |rows| && forall i :: 0 <= i < |rows| ==> (rows[i].ok <==> verdicts[i].None?)
    ensures AcceptedIds(batch, rows) == AcceptedBy(batch, verdicts)
    decreases |batch|
  {
    if batch != [] {
      AnswerTellsAccepted(batch[1..], verdicts[1..], rows[1..]);
    }
  }

  /** What the client reads as accepted is what the platform accepted. */
  lemma AnswerIsFaithful(cfg: Config, batch: seq<Claimed>, verdicts: seq<Option<string>>)
    requires |verdicts| == |batch|
    ensures |AnswerTo(cfg, batch, verdicts)| == |batch|
    ensures AcceptedIds(batch, AnswerTo(cfg, batch, verdicts)) == AcceptedBy(batch, verdicts)
  {
    RenderThenParse(Conversions(batch), verdicts, cfg.show);
    AnswerTellsAccepted(batch, verdicts, AnswerTo(cfg, batch, verdicts));
  }

  // --- Step by step ---

  lemma OnlySettlingUploads(cfg: Config, s: System, a: Action, id: EventId)
    requires !(a.Upload? && a.step.Settle?)
    ensures CountUploads(LedgerOps(cfg, s, a), id) == 0
  {
    if a.Upload? && a.u < |s.uploaders| && a.step.Cycle? {
      var mid := ClaimedTables(s.db, a.step.ids, s.clock);
      if HaveConversions(mid, a.step.ids) {
        CeilingOpsDeadLetter(mid, a.step.ids, s.clock, cfg.uploader.maxRowAttempts, cfg.uploader.customerId);
        var ceiling := CeilingOps(mid, a.step.ids, s.clock, cfg.uploader.maxRowAttempts, cfg.uploader.customerId);
        assert LedgerOps(cfg, s, a) == ClaimOps(a.step.ids, s.clock) + ceiling;
        assert forall i :: 0 <= i < |ceiling| ==> ceiling[i].Update? && ceiling[i].change.DeadLetterRow?;
      }
    }
    NoMarksNoUploads(LedgerOps(cfg, s, a), id);
  }

  /** The entries one uploader's step makes in the books. */
  lemma UploadEntries(cfg: Config, s: System, up: UploaderState, step: UploadStep, id: EventId)
    requires CanUpload(cfg, s, up, step)
    ensures CountUploads(UploadOps(cfg, s, up, step), id) + NewlyLost(up, step)[id]
            + multiset(NextUploader(cfg, s, up, step).Unsettled())[id]
            == NewlyAccepted(up, step)[id] + multiset(up.Unsettled())[id]
  {
    if step.Settle? {
      SettlingCountsAccepted(up.flight.batch, up.flight.rows, up.flight.startedAt, id);
    } else {
      NoUploadsBy(cfg, s, up, step, id);
      if step.Deliver? {
        AnswerIsFaithful(cfg, up.flight.batch, step.verdicts);
      }
    }
  }

  lemma NoUploadsBy(cfg: Config, s: System, up: UploaderState, step: UploadStep, id: EventId)
    requires !step.Settle?
    ensures CountUploads(UploadOps(cfg, s, up, step), id) == 0
  {
    var alone := s.(uploaders := [up]);
    OnlySettlingUploads(cfg, alone, Upload(0, step), id);
    assert LedgerOps(cfg, alone, Upload(0, step)) == UploadOps(cfg, alone, up, step);
    assert UploadOps(cfg, alone, up, step) == UploadOps(cfg, s, up, step);
  }

  lemma UploadKeepsBooks(cfg: Config, s: System, u: nat, step: UploadStep, db: Db)
    requires BooksBalance(s) && u < |s.uploaders| && CanUpload(cfg, s, s.uploaders[u], step)
    requires Run(s.db, UploadOps(cfg, s, s.uploaders[u], step)) == Some(db)
    ensures BooksBalance(AfterUpload(cfg, s, u, step, db))
  {
    var up := s.uploaders[u];
    PendingUpdate(s.uploaders, u, NextUploader(cfg, s, up, step));
    forall id
      ensures AfterUpload(cfg, s, u, step, db).accepted[id]
              == UploadedBit(db, id) + AfterUpload(cfg, s, u, step, db).lost[id]
                 + Pending(AfterUpload(cfg, s, u, step, db).uploaders)[id]
    {
      UploadEntries(cfg, s, up, step, id);
      RunCountsUploads(s.db, UploadOps(cfg, s, up, step), id);
    }
  }

  lemma ExceptionKeepsBooks(s: System, a: Action)
    requires BooksBalance(s) && (a.Upload? ==> a.u < |s.uploaders|)
    ensures BooksBalance(AfterException(s, a))
  {
    if a.Upload? {
      PendingUpdate(s.uploaders, a.u, FRESH_UPLOADER);
    }
  }

  lemma OthersKeepBooks(cfg: Config, s: System, a: Action, db: Db)
    requires BooksBalance(s) && !a.Upload? && Run(s.db, LedgerOps(cfg, s, a)) == Some(db)
    ensures BooksBalance(AfterAction(cfg, s, a, db))
  {
    var next := AfterAction(cfg, s, a, db);
    OnlyDbMatters(cfg, s, a, db);
    assert next.accepted == s.accepted && next.lost == s.lost && next.uploaders == s.uploaders;
    forall id ensures UploadedBit(db, id) == UploadedBit(s.db, id) {
      OnlySettlingUploads(cfg, s, a, id);
      RunCountsUploads(s.db, LedgerOps(cfg, s, a), id);
    }
  }

  lemma StepKeepsBooks(cfg: Config, s: System, a: Action)
    requires BooksBalance(s) && Do(cfg, s, a).Some?
    ensures BooksBalance(Do(cfg, s, a).value)
  {
    var db, raised := StepForm(cfg, s, a);
    if raised {
      ExceptionKeepsBooks(s, a);
    } else if a.Upload? {
      UploadKeepsBooks(cfg, s, a.u, a.step, db);
    } else {
      OthersKeepBooks(cfg, s, a, db);
    }
  }

  lemma {:induction false} NothingPending(uploaders: seq<UploaderState>)
    requires forall u :: 0 <= u < |uploaders| ==> uploaders[u].Unsettled() == []
    ensures Pending(uploaders) == multiset{}
  {
    if uploaders != [] {
      NothingPending(uploaders[..|uploaders| - 1]);
    }
  }

  /**
   * In every run, the platform's acceptances of an event are: one if its row is UPLOADED, plus those whose
   * response was lost or whose settlement was rolled back or cut short, plus those still being settled.
   */
  lemma {:induction false} BooksBalanceInEveryRun(cfg: Config, uploaders: nat, run: seq<Action>)
    requires IsRun(cfg, uploaders, run)
    ensures BooksBalance(StateAfter(cfg, uploaders, run))
    decreases |run|
  {
    if run == [] {
      NothingPending(Initial(uploaders).uploaders);
    } else {
      RunSplits(cfg, uploaders, run);
      BooksBalanceInEveryRun(cfg, uploaders, run[..|run| - 1]);
      StepKeepsBooks(cfg, StateAfter(cfg, uploaders, run[..|run| - 1]), run[|run| - 1]);
    }
  }

  /** Uploaded means accepted; and with nothing left to settle, accepted twice means an acceptance was lost. */
  lemma UploadedWasAccepted(cfg: Config, uploaders: nat, run: seq<Action>, id: EventId)
    requires IsRun(cfg, uploaders, run)
    ensures var s := StateAfter(cfg, uploaders, run);
            && (s.db.Has(id, Uploaded) ==> s.accepted[id] >= 1)
            && (id !in Pending(s.uploaders) && id !in s.lost ==>
                  s.accepted[id] <= 1 && (s.accepted[id] == 1 <==> s.db.Has(id, Uploaded)))
  {
    BooksBalanceInEveryRun(cfg, uploaders, run);
  }
}

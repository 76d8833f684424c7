/** What happens once a lease is lost: runs from the start that end in it, and what they lead to. */
module LeaseLoss {
  import opened Wrappers
  import opened Status
  import opened Model
  import opened Ledger
  import opened LedgerInvariants
  import opened Transactions
  import opened Delivery
  import opened Client
  import opened Pipeline
  import opened AuditTrail
  import opened Provenance
  import opened LeaseExclusivity
  import opened Straightness

  // --- Two uploaders with the same row ---

  /** An uploader about to send one row for the first time. */
  function Sending(c: Claimed, startedAt: nat): UploaderState {
    UploaderState([], None, Ready([c], 1, startedAt))
  }

  /** A row that one uploader is sending has gone stale, and another uploader, with batches of one, is free. */
  ghost predicate IsAboutToBeTaken(cfg: Config, s: System, u: nat, v: nat, c: Claimed, startedAt: nat) {
    && u < |s.uploaders| && v < |s.uploaders| && u != v && cfg.batchSize == 1
    && s.uploaders[u] == Sending(c, startedAt) && s.uploaders[v] == FRESH_UPLOADER
    && s.db.Has(c.eventId, Uploading)
    && !IsFresh(s.db.events[c.eventId], s.clock, cfg.uploader.staleAfter)
    && s.db.events[c.eventId].attemptCount < cfg.uploader.maxRowAttempts
  }

  lemma StaleRowIsTaken(cfg: Config, s: System, u: nat, v: nat, c: Claimed, startedAt: nat) returns (d: Claimed)
    requires AllSound(s.db.events) && IsAboutToBeTaken(cfg, s, u, v, c, startedAt)
    ensures d.eventId == c.eventId
    ensures var a := ClaimOfOne(s, v, c.eventId);
            && Do(cfg, s, a).Some?
            && var next := Do(cfg, s, a).value;
            && next.uploaders == s.uploaders[v := Sending(d, s.clock)] && next.db.Has(c.eventId, Uploading)
            && next.accepted == s.accepted && next.lost == s.lost
  {
    OneRowCanBeClaimed(cfg, s, v, c.eventId);
    d := OneRowClaimed(cfg, s, v, c.eventId, s.db.events.Keys - {c.eventId});
  }

  lemma OneRowClaimed(cfg: Config, s: System, v: nat, id: EventId, locked: set<EventId>) returns (d: Claimed)
    requires AllSound(s.db.events) && v < |s.uploaders| && s.uploaders[v] == FRESH_UPLOADER && cfg.batchSize == 1
    requires id in s.db.events && s.db.events[id].attemptCount < cfg.uploader.maxRowAttempts
    requires IsEnabled(cfg, s, Upload(v, Cycle([id], locked)))
    ensures d.eventId == id
    ensures var a := Upload(v, Cycle([id], locked));
            && Do(cfg, s, a).Some?
            && var next := Do(cfg, s, a).value;
            && next.uploaders == s.uploaders[v := Sending(d, s.clock)] && next.db.Has(id, Uploading)
            && next.accepted == s.accepted && next.lost == s.lost
  {
    var claimed, after := ClaimRuns(cfg, s, FRESH_UPLOADER, [id], locked);
    d := OnlyEntry(cfg, s, id, claimed, after);
    FirstOfOne(cfg, s.clock, d);
    ClaimStep(cfg, s, v, Cycle([id], locked), after);
  }

  lemma FirstOfOne(cfg: Config, now: nat, d: Claimed)
    requires cfg.batchSize == 1
    ensures AfterClaiming(cfg, now, FRESH_UPLOADER, [d]) == Sending(d, now)
  {
    assert [] + [d] == [d];
  }

  lemma ClaimStep(cfg: Config, s: System, v: nat, step: UploadStep, after: Db)
    requires v < |s.uploaders| && step.Cycle? && IsEnabled(cfg, s, Upload(v, step))
    requires Run(s.db, UploadOps(cfg, s, s.uploaders[v], step)) == Some(after)
    ensures Do(cfg, s, Upload(v, step)).Some?
    ensures var next := Do(cfg, s, Upload(v, step)).value;
            && next.uploaders == s.uploaders[v := NextUploader(cfg, s, s.uploaders[v], step)] && next.db == after
            && next.accepted == s.accepted && next.lost == s.lost
  {
    assert Do(cfg, s, Upload(v, step)) == Some(AfterAction(cfg, s, Upload(v, step), after));
    assert NewlyAccepted(s.uploaders[v], step) == multiset{} == NewlyLost(s.uploaders[v], step);
  }

  lemma OnlyEntry(cfg: Config, s: System, id: EventId, claimed: seq<Claimed>, after: Db) returns (d: Claimed)
    requires id in s.db.events && s.db.events[id].attemptCount < cfg.uploader.maxRowAttempts
    requires IsClaimResult(s.db, [id], s.clock, cfg.uploader.maxRowAttempts, cfg.uploader.customerId, claimed, after)
    ensures claimed == [d] && d.eventId == id && after.Has(id, Uploading)
  {
    assert id in [id];
    assert InBatch(claimed, id);
    var i :| 0 <= i < |claimed| && claimed[i].eventId == id;
    d := claimed[i];
    forall j | 0 <= j < |claimed| ensures claimed[j].eventId == id {
      assert IsClaimedNow(s.db, [id], s.clock, cfg.uploader.maxRowAttempts, cfg.uploader.customerId, claimed[j], after);
    }
    var last := |claimed| - 1;
    assert claimed[0].eventId == claimed[last].eventId;
  }

  /** The platform's answer about one row. */
  function OneAnswer(verdict: Option<string>): RowResult {
    VerdictResults([verdict])[0]
  }

  lemma OneRowIsAnswered(cfg: Config, s: System, u: nat, c: Claimed, startedAt: nat, verdict: Option<string>)
    requires u < |s.uploaders| && s.uploaders[u] == Sending(c, startedAt)
    ensures var a := Upload(u, Deliver([verdict]));
            && Do(cfg, s, a).Some?
            && var next := Do(cfg, s, a).value;
            && next.uploaders
               == s.uploaders[u := UploaderState([], None, Answered([c], 1, startedAt, [OneAnswer(verdict)]))]
            && next.db == s.db && next.lost == s.lost
            && next.accepted == s.accepted + if verdict.None? then multiset{c.eventId} else multiset{}
  {
    hide Do, NextUploader, NewlyAccepted, CanUpload;
    NextAfterOneAnswer(cfg, s, c, startedAt, verdict);
    OneAnswerIsPossible(cfg, s, c, startedAt, verdict);
    UploadCommits(cfg, s, u, Deliver([verdict]), s.db);
  }

  lemma OneAnswerIsPossible(cfg: Config, s: System, c: Claimed, startedAt: nat, verdict: Option<string>)
    ensures CanUpload(cfg, s, Sending(c, startedAt), Deliver([verdict]))
    ensures NewlyLost(Sending(c, startedAt), Deliver([verdict])) == multiset{}
  {
  }

  lemma NextAfterOneAnswer(cfg: Config, s: System, c: Claimed, startedAt: nat, verdict: Option<string>)
    ensures NextUploader(cfg, s, Sending(c, startedAt), Deliver([verdict]))
            == UploaderState([], None, Answered([c], 1, startedAt, [OneAnswer(verdict)]))
    ensures NewlyAccepted(Sending(c, startedAt), Deliver([verdict]))
            == if verdict.None? then multiset{c.eventId} else multiset{}
  {
    AnswerToOne(cfg, c, verdict);
    assert AcceptedBy([c], [verdict]) == if verdict.None? then [c.eventId] else [];
  }

  lemma AnswerToOne(cfg: Config, c: Claimed, verdict: Option<string>)
    ensures AnswerTo(cfg, [c], [verdict]) == [OneAnswer(verdict)]
  {
    RenderThenParse(Conversions([c]), [verdict], cfg.show);
  }

  lemma OneRowIsSettled(cfg: Config, s: System, u: nat, c: Claimed, startedAt: nat, row: RowResult)
    requires u < |s.uploaders| && s.uploaders[u] == UploaderState([], None, Answered([c], 1, startedAt, [row]))
    ensures var a := Upload(u, Settle);
            && IsEnabled(cfg, s, a)
            && Run(s.db, LedgerOps(cfg, s, a)) == Step(s.db, Update(c.eventId, RowChange(c, row), startedAt))
            && (row.ok ==> multiset(s.uploaders[u].Unsettled()) == multiset{c.eventId})
  {
    var op := Update(c.eventId, RowChange(c, row), startedAt);
    assert ApplyOps([c], [row], startedAt) == [op];
    SingleOp(s.db, op);
    assert AcceptedIds([c], [row]) == if row.ok then [c.eventId] else [];
  }

  lemma OneRowIsRefused(cfg: Config, s: System, v: nat, d: Claimed, startedAt: nat, why: string)
    requires v < |s.uploaders| && s.uploaders[v] == Sending(d, startedAt)
    ensures var a := Upload(v, RefuseRequest(why));
            && Do(cfg, s, a).Some?
            && var next := Do(cfg, s, a).value;
            && next.uploaders == s.uploaders[v := UploaderState([], None, Refused([d], 1, startedAt, why))]
            && next.db == s.db && next.queue == s.queue && next.publishing == s.publishing
  {
  }

  lemma OneRowIsGivenUp(cfg: Config, s: System, v: nat, d: Claimed, startedAt: nat, why: string)
    requires v < |s.uploaders| && s.uploaders[v] == UploaderState([], None, Refused([d], 1, startedAt, why))
    requires d.eventId in s.db.events
    ensures IsEnabled(cfg, s, Upload(v, GiveUp))
    ensures Run(s.db, LedgerOps(cfg, s, Upload(v, GiveUp)))
            == Step(s.db, Update(d.eventId, DeadLetterRow(Permanent, PermanentRequest(why), Some(why), d.conversion),
                                 startedAt))
  {
    DeadLetterAllOfOne(s.db, d, PermanentRequest(why), why, startedAt);
    SingleOp(s.db, Update(d.eventId, DeadLetterRow(Permanent, PermanentRequest(why), Some(why), d.conversion),
                          startedAt));
  }

  lemma DeadLetterAllOfOne(db: Db, d: Claimed, reason: Reason, why: string, now: nat)
    requires d.eventId in db.events
    ensures DeadLetterAllOps(db, [d], Permanent, reason, why, now)
            == [Update(d.eventId, DeadLetterRow(Permanent, reason, Some(why), d.conversion), now)]
  {
    var id := d.eventId;
    assert Ids([d]) == [id] && FirstOccurrences([id]) == [id] && Load(db, [id]) == [id];
    assert EntryOf([d], id) == d;
  }

  /** The first half: the stale row is claimed again, and the first holder's answer comes in and is settled. */
  lemma TakenThenPutBack(cfg: Config, uploaders: nat, run: seq<Action>, u: nat, v: nat, c: Claimed, startedAt: nat)
    returns (next: System, d: Claimed)
    requires IsRun(cfg, uploaders, run) && IsAboutToBeTaken(cfg, StateAfter(cfg, uploaders, run), u, v, c, startedAt)
    ensures var s := StateAfter(cfg, uploaders, run);
            && After(cfg, uploaders,
                     run + [ClaimOfOne(s, v, c.eventId)] + [Upload(u, Deliver([LATE]))] + [Upload(u, Settle)])
               == Some(next)
            && d.eventId == c.eventId && next.db.Has(c.eventId, FailedRetryable)
            && v < |next.uploaders| && next.uploaders[v] == Sending(d, s.clock)
  {
    var s0 := StateAfter(cfg, uploaders, run);
    TablesSoundInEveryRun(cfg, uploaders, run);
    d := StaleRowIsTaken(cfg, s0, u, v, c, startedAt);
    var a1 := ClaimOfOne(s0, v, c.eventId);
    var s1 := Do(cfg, s0, a1).value;
    RunReaches(cfg, uploaders, run, a1, s0, s1);
    next := AnsweredAndPutBack(cfg, uploaders, run + [a1], s1, u, c, startedAt);
  }

  const LATE: Option<string> := Some("TOO_RECENT_CONVERSION")

  lemma AnsweredAndPutBack(cfg: Config, uploaders: nat, run: seq<Action>, s: System, u: nat, c: Claimed, startedAt: nat)
    returns (next: System)
    requires After(cfg, uploaders, run) == Some(s) && u < |s.uploaders| && s.uploaders[u] == Sending(c, startedAt)
    requires s.db.Has(c.eventId, Uploading)
    ensures After(cfg, uploaders, run + [Upload(u, Deliver([LATE]))] + [Upload(u, Settle)]) == Some(next)
    ensures next.db.Has(c.eventId, FailedRetryable) && next.uploaders == s.uploaders[u := FRESH_UPLOADER]
  {
    OneRowIsAnswered(cfg, s, u, c, startedAt, LATE);
    var answered := Do(cfg, s, Upload(u, Deliver([LATE]))).value;
    RunReaches(cfg, uploaders, run, Upload(u, Deliver([LATE])), s, answered);
    next := SettledBack(cfg, answered, u, c, startedAt);
    RunReaches(cfg, uploaders, run + [Upload(u, Deliver([LATE]))], Upload(u, Settle), answered, next);
  }

  /** The second half: the other holder's request is refused for good. */
  lemma RefusedAndGivenUp(cfg: Config, uploaders: nat, run: seq<Action>, s: System, v: nat, d: Claimed, startedAt: nat)
    returns (next: System)
    requires After(cfg, uploaders, run) == Some(s) && v < |s.uploaders| && s.uploaders[v] == Sending(d, startedAt)
    requires s.db.Has(d.eventId, FailedRetryable)
    ensures After(cfg, uploaders, run + [Upload(v, RefuseRequest(""))] + [Upload(v, GiveUp)]) == Some(next)
    ensures d.eventId in next.db.events && !IsStraight(next.db.events[d.eventId].log)
  {
    OneRowIsRefused(cfg, s, v, d, startedAt, "");
    var refused := Do(cfg, s, Upload(v, RefuseRequest(""))).value;
    RunReaches(cfg, uploaders, run, Upload(v, RefuseRequest("")), s, refused);
    next := GivenUp(cfg, refused, v, d, startedAt);
    RunReaches(cfg, uploaders, run + [Upload(v, RefuseRequest(""))], Upload(v, GiveUp), refused, next);
  }

  /** Once a row is taken while it is being sent, its log can skip the retry that the table provides for. */
  lemma LostLeaseSkipsRetry(cfg: Config, uploaders: nat, run: seq<Action>, u: nat, v: nat, c: Claimed, startedAt: nat)
    requires IsRun(cfg, uploaders, run) && IsAboutToBeTaken(cfg, StateAfter(cfg, uploaders, run), u, v, c, startedAt)
    ensures var longer := run + [ClaimOfOne(StateAfter(cfg, uploaders, run), v, c.eventId)]
                          + [Upload(u, Deliver([LATE]))]
                          + [Upload(u, Settle)] + [Upload(v, RefuseRequest(""))] + [Upload(v, GiveUp)];
            && IsRun(cfg, uploaders, longer)
            && var after := StateAfter(cfg, uploaders, longer).db.events;
            c.eventId in after && !IsStraight(after[c.eventId].log)
  {
    var s := StateAfter(cfg, uploaders, run);
    var middle := run + [ClaimOfOne(s, v, c.eventId)] + [Upload(u, Deliver([LATE]))] + [Upload(u, Settle)];
    var putBack, d := TakenThenPutBack(cfg, uploaders, run, u, v, c, startedAt);
    var end := RefusedAndGivenUp(cfg, uploaders, middle, putBack, v, d, s.clock);
  }

  lemma SettledBack(cfg: Config, s: System, u: nat, c: Claimed, startedAt: nat) returns (next: System)
    requires u < |s.uploaders| && s.db.Has(c.eventId, Uploading)
    requires s.uploaders[u]
             == UploaderState([], None, Answered([c], 1, startedAt, [OneAnswer(Some("TOO_RECENT_CONVERSION"))]))
    ensures Do(cfg, s, Upload(u, Settle)) == Some(next) && next.db.Has(c.eventId, FailedRetryable)
    ensures next.uploaders == s.uploaders[u := FRESH_UPLOADER]
  {
    var row := OneAnswer(Some("TOO_RECENT_CONVERSION"));
    OneRowIsSettled(cfg, s, u, c, startedAt, row);
    assert RowChange(c, row) == MarkRetryable("TOO_RECENT_CONVERSION");
    next := AfterAction(cfg, s, Upload(u, Settle), Step(s.db, Update(c.eventId, RowChange(c, row), startedAt)).value);
  }

  lemma GivenUp(cfg: Config, s: System, v: nat, d: Claimed, startedAt: nat) returns (next: System)
    requires v < |s.uploaders| && s.uploaders[v] == UploaderState([], None, Refused([d], 1, startedAt, ""))
    requires s.db.Has(d.eventId, FailedRetryable)
    ensures Do(cfg, s, Upload(v, GiveUp)) == Some(next)
    ensures d.eventId in next.db.events && !IsStraight(next.db.events[d.eventId].log)
  {
    OneRowIsGivenUp(cfg, s, v, d, startedAt, "");
    var change := DeadLetterRow(Permanent, PermanentRequest(""), Some(""), d.conversion);
    DeadLetteringSkips(s.db, d.eventId, change, startedAt);
    next := AfterAction(cfg, s, Upload(v, GiveUp), Step(s.db, Update(d.eventId, change, startedAt)).value);
  }

  lemma DeadLetteringSkips(db: Db, id: EventId, change: Change, now: nat)
    requires db.Has(id, FailedRetryable) && change.DeadLetterRow?
    ensures Step(db, Update(id, change, now)).Some?
    ensures var after := Step(db, Update(id, change, now)).value.events;
            id in after && !IsStraight(after[id].log)
  {
    var e := Changed(db.events[id], change, now).value;
    var last := e.log[|e.log| - 1];
    assert last.from == Some(FailedRetryable) && last.to == DeadLettered;
  }

  // --- The same row accepted twice ---

  lemma SettledForGood(cfg: Config, s: System, u: nat, c: Claimed, startedAt: nat) returns (next: System)
    requires u < |s.uploaders| && s.db.Has(c.eventId, Uploading)
    requires s.uploaders[u] == UploaderState([], None, Answered([c], 1, startedAt, [OneAnswer(None)]))
    ensures Do(cfg, s, Upload(u, Settle)) == Some(next) && next.db.Has(c.eventId, Uploaded)
    ensures next.uploaders == s.uploaders[u := FRESH_UPLOADER] && next.accepted == s.accepted && next.lost == s.lost
  {
    OneRowIsSettled(cfg, s, u, c, startedAt, OneAnswer(None));
    var op := Update(c.eventId, RowChange(c, OneAnswer(None)), startedAt);
    next := AfterAction(cfg, s, Upload(u, Settle), Step(s.db, op).value);
    assert NewlyAccepted(s.uploaders[u], Settle) == multiset{} == NewlyLost(s.uploaders[u], Settle);
  }

  /** Settling a row that is already UPLOADED raises, and the uploader dies with the acceptance it was told of. */
  lemma SettlingTwiceRaises(cfg: Config, s: System, v: nat, d: Claimed, startedAt: nat) returns (next: System)
    requires v < |s.uploaders| && s.db.Has(d.eventId, Uploaded)
    requires s.uploaders[v] == UploaderState([], None, Answered([d], 1, startedAt, [OneAnswer(None)]))
    ensures Do(cfg, s, Upload(v, Settle)) == Some(next) && next.db == s.db && next.accepted == s.accepted
    ensures next.lost == s.lost + multiset{d.eventId}
  {
    OneRowIsSettled(cfg, s, v, d, startedAt, OneAnswer(None));
    assert Step(s.db, Update(d.eventId, RowChange(d, OneAnswer(None)), startedAt)) == None;
    next := AfterException(s, Upload(v, Settle));
  }

  lemma AcceptedAndSettled(cfg: Config, uploaders: nat, run: seq<Action>, s: System, u: nat, c: Claimed, startedAt: nat)
    returns (next: System)
    requires After(cfg, uploaders, run) == Some(s) && u < |s.uploaders| && s.uploaders[u] == Sending(c, startedAt)
    requires s.db.Has(c.eventId, Uploading)
    ensures After(cfg, uploaders, run + [Upload(u, Deliver([None]))] + [Upload(u, Settle)]) == Some(next)
    ensures next.db.Has(c.eventId, Uploaded) && next.uploaders == s.uploaders[u := FRESH_UPLOADER]
    ensures next.accepted == s.accepted + multiset{c.eventId} && next.lost == s.lost
  {
    OneRowIsAnswered(cfg, s, u, c, startedAt, None);
    var answered := Do(cfg, s, Upload(u, Deliver([None]))).value;
    RunReaches(cfg, uploaders, run, Upload(u, Deliver([None])), s, answered);
    next := SettledForGood(cfg, answered, u, c, startedAt);
    RunReaches(cfg, uploaders, run + [Upload(u, Deliver([None]))], Upload(u, Settle), answered, next);
  }

  lemma AcceptedAndRolledBack(cfg: Config, uploaders: nat, run: seq<Action>, s: System, v: nat, d: Claimed,
                              startedAt: nat)
    returns (next: System)
    requires After(cfg, uploaders, run) == Some(s) && v < |s.uploaders| && s.uploaders[v] == Sending(d, startedAt)
    requires s.db.Has(d.eventId, Uploaded)
    ensures After(cfg, uploaders, run + [Upload(v, Deliver([None]))] + [Upload(v, Settle)]) == Some(next)
    ensures next.db == s.db && next.accepted == s.accepted + multiset{d.eventId}
    ensures next.lost == s.lost + multiset{d.eventId}
  {
    OneRowIsAnswered(cfg, s, v, d, startedAt, None);
    var answered := Do(cfg, s, Upload(v, Deliver([None]))).value;
    RunReaches(cfg, uploaders, run, Upload(v, Deliver([None])), s, answered);
    next := SettlingTwiceRaises(cfg, answered, v, d, startedAt);
    RunReaches(cfg, uploaders, run + [Upload(v, Deliver([None]))], Upload(v, Settle), answered, next);
  }

  /** Once a row is taken while it is being sent, the platform can accept it twice, one of the two never settled. */
  lemma LostLeaseAcceptsTwice(cfg: Config, uploaders: nat, run: seq<Action>, u: nat, v: nat, c: Claimed, startedAt: nat)
    requires IsRun(cfg, uploaders, run) && IsAboutToBeTaken(cfg, StateAfter(cfg, uploaders, run), u, v, c, startedAt)
    ensures var s := StateAfter(cfg, uploaders, run);
            var longer := run + [ClaimOfOne(s, v, c.eventId)] + [Upload(u, Deliver([None]))] + [Upload(u, Settle)]
                          + [Upload(v, Deliver([None]))] + [Upload(v, Settle)];
            && IsRun(cfg, uploaders, longer)
            && var end := StateAfter(cfg, uploaders, longer);
            && end.db.Has(c.eventId, Uploaded) && end.accepted[c.eventId] == s.accepted[c.eventId] + 2
            && end.lost[c.eventId] == s.lost[c.eventId] + 1
  {
    var s := StateAfter(cfg, uploaders, run);
    TablesSoundInEveryRun(cfg, uploaders, run);
    var d := StaleRowIsTaken(cfg, s, u, v, c, startedAt);
    var claim := ClaimOfOne(s, v, c.eventId);
    var taken := Do(cfg, s, claim).value;
    RunReaches(cfg, uploaders, run, claim, s, taken);
    var settled := AcceptedAndSettled(cfg, uploaders, run + [claim], taken, u, c, startedAt);
    var middle := run + [claim] + [Upload(u, Deliver([None]))] + [Upload(u, Settle)];
    var end := AcceptedAndRolledBack(cfg, uploaders, middle, settled, v, d, s.clock);
  }
}

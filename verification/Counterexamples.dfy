/**
 * Runs that show what does not hold of the pipeline. Every run starts from empty tables and
 * takes a lead with a click id and both consents to the uploaders.
 */
module Counterexamples {
  import opened Wrappers
  import opened Status
  import opened Consent
  import opened Identifiers
  import opened Model
  import opened Ledger
  import opened LedgerInvariants
  import opened Transactions
  import opened Settlement
  import opened Processor
  import opened Queue
  import opened Client
  import opened Pipeline
  import opened AuditTrail
  import opened Provenance
  import opened NoSilentLoss
  import opened LeaseExclusivity
  import opened Raising
  import opened Straightness
  import opened LeaseLoss

  // --- From the webhook to PROCESSED ---

  const LEAD: LeadEvent :=
    LeadEvent("salesforce:1", Salesforce, "1", Conversion("closed_won", "2024-01-01 00:00:00+00:00", None, None),
              Some("click"), NO_IDENTIFIERS, ConsentSignals(Some(Granted), Some(Granted)))

  const ID: EventId := LEAD.eventId

  /** Ingest, publish, receive, process, ack. */
  const OPENING: seq<Action> :=
    [IngestLead(LEAD)] + [PublishLead(ID)] + [Receive] + [ProcessDelivery(0)] + [AckDelivery(0)]

  lemma OtherCommits(cfg: Config, s: System, a: Action, db: Db)
    requires !a.Upload? && IsEnabled(cfg, s, a) && Run(s.db, LedgerOps(cfg, s, a)) == Some(db)
    ensures Do(cfg, s, a) == Some(AfterAction(cfg, s, a, db))
  {
    hide IsEnabled, LedgerOps, AfterAction;
  }

  function Ingested(uploaders: nat): System {
    Initial(uploaders).(db := Db(map[ID := QueuedEvent(LEAD.FactsAt(0), 0)], []),
                        publishing := map[ID := Message(ID, NO_IDENTIFIERS, 0)], ingested := map[ID := LEAD])
  }

  lemma IngestStep(cfg: Config, uploaders: nat)
    ensures Do(cfg, Initial(uploaders), IngestLead(LEAD)) == Some(Ingested(uploaders))
  {
    var s := Initial(uploaders);
    SingleOp(s.db, InsertValidated(LEAD, 0));
    var db := Step(s.db, InsertValidated(LEAD, 0)).value;
    OtherCommits(cfg, s, IngestLead(LEAD), db);
    assert AfterAction(cfg, s, IngestLead(LEAD), db).publishing == Ingested(uploaders).publishing;
  }

  /** The message on its way: published, then handed out under ack id 0. */
  function Delivered(uploaders: nat): System {
    Ingested(uploaders).(publishing := map[],
                         queue := QueueState([], map[0 := Envelope(Message(ID, NO_IDENTIFIERS, 0), 1)], 1))
  }

  lemma DeliverySteps(cfg: Config, uploaders: nat) returns (published: System)
    ensures Do(cfg, Ingested(uploaders), PublishLead(ID)) == Some(published)
    ensures Do(cfg, published, Receive) == Some(Delivered(uploaders))
  {
    var s := Ingested(uploaders);
    OtherCommits(cfg, s, PublishLead(ID), s.db);
    published := AfterAction(cfg, s, PublishLead(ID), s.db);
    assert published.queue.ready == [Envelope(Message(ID, NO_IDENTIFIERS, 0), 1)] && published.publishing == map[];
    OtherCommits(cfg, published, Receive, published.db);
    assert ReceiveOne(published.queue).ready == [];
  }

  /** The empty message of a click-id lead is processed with the digests of the empty record. */
  lemma LeadIsProcessed(lib: Libraries)
    ensures Decide(lib, QueuedEvent(LEAD.FactsAt(0), 0), NO_IDENTIFIERS).Process?
  {
    EmptyMessageRejectedIff(lib, QueuedEvent(LEAD.FactsAt(0), 0));
  }

  function ProcessedEvent(lib: Libraries): Event {
    Changed(QueuedEvent(LEAD.FactsAt(0), 0), Decide(lib, QueuedEvent(LEAD.FactsAt(0), 0), NO_IDENTIFIERS), 0)
    .GetOr(QueuedEvent(LEAD.FactsAt(0), 0))
  }

  /** The lead PROCESSED and its delivery acknowledged. */
  function Opened(cfg: Config, uploaders: nat): System {
    Delivered(uploaders).(db := Db(map[ID := ProcessedEvent(cfg.lib)], []), queue := QueueState([], map[], 1))
  }

  lemma ProcessingSteps(cfg: Config, uploaders: nat) returns (processed: System)
    ensures Do(cfg, Delivered(uploaders), ProcessDelivery(0)) == Some(processed)
    ensures Do(cfg, processed, AckDelivery(0)) == Some(Opened(cfg, uploaders))
    ensures ProcessedEvent(cfg.lib).status == Processed && ProcessedEvent(cfg.lib).attemptCount == 0
  {
    hide Decide;
    var s := Delivered(uploaders);
    var m := Message(ID, NO_IDENTIFIERS, 0);
    LeadIsProcessed(cfg.lib);
    ProcessedRow(cfg.lib, s.db, m, 0);
    var db := Db(map[ID := ProcessedEvent(cfg.lib)], []);
    assert WithEvent(s.db, ID, ProcessedEvent(cfg.lib)) == db;
    OtherCommits(cfg, s, ProcessDelivery(0), db);
    processed := AfterAction(cfg, s, ProcessDelivery(0), db);
    OtherCommits(cfg, processed, AckDelivery(0), db);
    var acked := AfterAction(cfg, processed, AckDelivery(0), db);
    assert acked.queue.inflight == map[] && acked.committed == {};
  }

  lemma OpeningRuns(cfg: Config, uploaders: nat)
    ensures After(cfg, uploaders, OPENING) == Some(Opened(cfg, uploaders))
    ensures var e := ProcessedEvent(cfg.lib);
            e.status == Processed && e.attemptCount == 0
  {
    hide Do, Opened, Delivered, Ingested;
    IngestStep(cfg, uploaders);
    RunReaches(cfg, uploaders, [], IngestLead(LEAD), Initial(uploaders), Ingested(uploaders));
    assert [] + [IngestLead(LEAD)] == [IngestLead(LEAD)];
    var published := DeliverySteps(cfg, uploaders);
    var r1 := [IngestLead(LEAD)];
    RunReaches(cfg, uploaders, r1, PublishLead(ID), Ingested(uploaders), published);
    var r2 := r1 + [PublishLead(ID)];
    RunReaches(cfg, uploaders, r2, Receive, published, Delivered(uploaders));
    var r3 := r2 + [Receive];
    var processed := ProcessingSteps(cfg, uploaders);
    RunReaches(cfg, uploaders, r3, ProcessDelivery(0), Delivered(uploaders), processed);
    RunReaches(cfg, uploaders, r3 + [ProcessDelivery(0)], AckDelivery(0), processed, Opened(cfg, uploaders));
  }

  // --- The claim ---

  /** The claim of the only event there is. */
  function ClaimOnly(u: nat): Action {
    Upload(u, Cycle([ID], {}))
  }

  /** The state after that claim, in which the uploader is `up`; nothing but its row and this uploader changed. */
  predicate IsAfterClaim(s: System, u: nat, next: System, up: UploaderState)
    requires ID in s.db.events && u < |s.uploaders|
  {
    && next.db.events.Keys == {ID} && next.db.Has(ID, Uploading)
    && next.db.events[ID].attemptCount == s.db.events[ID].attemptCount + 1
    && next.db.events[ID].lastAttemptAt == Some(s.clock)
    && next == s.(db := next.db, uploaders := s.uploaders[u := up])
  }

  lemma OnlySelection(events: map<EventId, Event>, now: nat, limit: nat, retryAfter: nat, staleAfter: nat)
    requires events.Keys == {ID} && limit >= 1 && Eligible(events[ID], now, retryAfter, staleAfter)
    ensures IsSelection(events, now, limit, retryAfter, staleAfter, {}, [ID])
  {
    assert forall id :: Claimable(events, id, now, retryAfter, staleAfter, {}) ==> id == ID;
    assert ID in [ID];
  }

  lemma OnlyEntryFacts(cfg: Config, s: System, claimed: seq<Claimed>, after: Db) returns (d: Claimed)
    requires s.db.events.Keys == {ID} && s.db.events[ID].attemptCount < cfg.uploader.maxRowAttempts
    requires IsClaimResult(s.db, [ID], s.clock, cfg.uploader.maxRowAttempts, cfg.uploader.customerId, claimed, after)
    ensures claimed == [d] && d.eventId == ID && after.events.Keys == {ID} && after.Has(ID, Uploading)
    ensures after.events[ID].attemptCount == s.db.events[ID].attemptCount + 1
    ensures after.events[ID].lastAttemptAt == Some(s.clock)
  {
    d := OnlyEntry(cfg, s, ID, claimed, after);
    assert IsClaimedNow(s.db, [ID], s.clock, cfg.uploader.maxRowAttempts, cfg.uploader.customerId, claimed[0], after);
  }

  lemma ClaimIsPossible(cfg: Config, s: System, up: UploaderState)
    requires s.db.events.Keys == {ID} && up.flight.Idle? && |up.waiting| < cfg.batchSize
    requires Eligible(s.db.events[ID], s.clock, cfg.uploader.retryAfter, cfg.uploader.staleAfter)
    ensures CanUpload(cfg, s, up, Cycle([ID], {}))
  {
    OnlySelection(s.db.events, s.clock, cfg.batchSize - |up.waiting|, cfg.uploader.retryAfter, cfg.uploader.staleAfter);
  }

  lemma QuietCycle(cfg: Config, s: System, u: nat, step: UploadStep, db: Db)
    requires u < |s.uploaders| && step.Cycle?
    ensures AfterUpload(cfg, s, u, step, db)
            == s.(db := db, uploaders := s.uploaders[u := NextUploader(cfg, s, s.uploaders[u], step)])
  {
    hide NextUploader;
    assert NewlyAccepted(s.uploaders[u], step) == multiset{} == NewlyLost(s.uploaders[u], step);
    assert NewlyCarried(s.uploaders[u], step) == multiset{};
  }

  lemma ClaimStepOfOnly(cfg: Config, s: System, u: nat) returns (d: Claimed, next: System)
    requires AllSound(s.db.events) && s.db.events.Keys == {ID} && u < |s.uploaders|
    requires s.uploaders[u].flight.Idle? && |s.uploaders[u].waiting| < cfg.batchSize
    requires Eligible(s.db.events[ID], s.clock, cfg.uploader.retryAfter, cfg.uploader.staleAfter)
    requires s.db.events[ID].attemptCount < cfg.uploader.maxRowAttempts
    ensures d.eventId == ID && Do(cfg, s, ClaimOnly(u)) == Some(next)
    ensures IsAfterClaim(s, u, next, AfterClaiming(cfg, s.clock, s.uploaders[u], [d]))
  {
    hide CanUpload, UploadOps, NextUploader, AfterClaiming, Do, IsClaimResult, AllSound, AfterUpload;
    var up := s.uploaders[u];
    ClaimIsPossible(cfg, s, up);
    var claimed, after := ClaimRuns(cfg, s, up, [ID], {});
    d := OnlyEntryFacts(cfg, s, claimed, after);
    UploadCommits(cfg, s, u, Cycle([ID], {}), after);
    QuietCycle(cfg, s, u, Cycle([ID], {}), after);
    next := AfterUpload(cfg, s, u, Cycle([ID], {}), after);
  }

  lemma TickStep(cfg: Config, s: System, seconds: nat)
    ensures Do(cfg, s, Tick(seconds)) == Some(s.(clock := s.clock + seconds))
  {
    OtherCommits(cfg, s, Tick(seconds), s.db);
  }

  lemma SoundAfter(cfg: Config, uploaders: nat, run: seq<Action>, s: System)
    requires After(cfg, uploaders, run) == Some(s)
    ensures AllSound(s.db.events)
  {
    hide Do, After;
    TablesSoundInEveryRun(cfg, uploaders, run);
  }

  /** Opening, then the first claim by uploader 0. */
  lemma FirstClaim(cfg: Config, uploaders: nat) returns (d: Claimed, s: System)
    requires uploaders >= 1 && cfg.batchSize >= 1 && cfg.uploader.maxRowAttempts >= 1
    ensures After(cfg, uploaders, OPENING + [ClaimOnly(0)]) == Some(s) && d.eventId == ID
    ensures IsAfterClaim(Opened(cfg, uploaders), 0, s, AfterClaiming(cfg, 0, FRESH_UPLOADER, [d]))
    ensures s.db.events[ID].attemptCount == 1 && IsIdle(s)
  {
    hide Do, AfterClaiming;
    OpeningRuns(cfg, uploaders);
    var o := Opened(cfg, uploaders);
    SoundAfter(cfg, uploaders, OPENING, o);
    d, s := ClaimStepOfOnly(cfg, o, 0);
    RunReaches(cfg, uploaders, OPENING, ClaimOnly(0), o, s);
  }

  // --- Two uploaders, batches of one ---

  /** Then the clock passes the lease while the row is being sent. */
  function StaleRun(staleAfter: nat): seq<Action> {
    OPENING + [ClaimOnly(0)] + [Tick(staleAfter)]
  }

  lemma StaleWhileSending(cfg: Config) returns (c: Claimed)
    requires cfg.batchSize == 1 && cfg.uploader.maxRowAttempts >= 2
    ensures IsRun(cfg, 2, StaleRun(cfg.uploader.staleAfter))
    ensures IsAboutToBeTaken(cfg, StateAfter(cfg, 2, StaleRun(cfg.uploader.staleAfter)), 0, 1, c, 0)
    ensures c.eventId == ID
    ensures var s := StateAfter(cfg, 2, StaleRun(cfg.uploader.staleAfter));
            s.accepted == multiset{} == s.lost
  {
    hide Do;
    var s;
    c, s := FirstClaim(cfg, 2);
    FirstOfOne(cfg, 0, c);
    TickStep(cfg, s, cfg.uploader.staleAfter);
    var stale := s.(clock := s.clock + cfg.uploader.staleAfter);
    RunReaches(cfg, 2, OPENING + [ClaimOnly(0)], Tick(cfg.uploader.staleAfter), s, stale);
  }

  /** A run of two uploaders that dead-letters an event straight from FAILED_RETRYABLE. */
  lemma TwoUploadersSkipRetry(cfg: Config) returns (run: seq<Action>)
    requires cfg.batchSize == 1 && cfg.uploader.maxRowAttempts >= 2
    ensures IsRun(cfg, 2, run) && !AllStraight(StateAfter(cfg, 2, run).db.events)
  {
    hide Do, After, IsStraight;
    var first := StaleRun(cfg.uploader.staleAfter);
    var c := StaleWhileSending(cfg);
    LostLeaseSkipsRetry(cfg, 2, first, 0, 1, c, 0);
    run := first + [ClaimOfOne(StateAfter(cfg, 2, first), 1, c.eventId)] + [Upload(0, UploadStep.Deliver([LATE]))]
           + [Upload(0, Settle)] + [Upload(1, RefuseRequest(""))] + [Upload(1, GiveUp)];
  }

  /** A run of two uploaders in which the platform accepts an event twice and the gateway settles it once. */
  lemma TwoUploadersAcceptTwice(cfg: Config) returns (run: seq<Action>)
    requires cfg.batchSize == 1 && cfg.uploader.maxRowAttempts >= 2
    ensures IsRun(cfg, 2, run)
    ensures var s := StateAfter(cfg, 2, run);
            s.db.Has(ID, Uploaded) && s.accepted[ID] == 2 && s.lost[ID] == 1
  {
    hide Do, After;
    var first := StaleRun(cfg.uploader.staleAfter);
    var c := StaleWhileSending(cfg);
    LostLeaseAcceptsTwice(cfg, 2, first, 0, 1, c, 0);
    run := first + [ClaimOfOne(StateAfter(cfg, 2, first), 1, c.eventId)] + [Upload(0, UploadStep.Deliver([None]))]
           + [Upload(0, Settle)] + [Upload(1, UploadStep.Deliver([None]))] + [Upload(1, Settle)];
  }

  // --- One uploader, batches of two ---

  /** One uploader that claimed the same row twice and is about to send both copies in one batch. */
  ghost predicate IsSendingTwice(cfg: Config, run: seq<Action>, s: System, c: Claimed, d: Claimed) {
    && After(cfg, 1, run) == Some(s) && c.eventId == d.eventId == ID && s.db.Has(ID, Uploading)
    && s.uploaders == [UploaderState([], None, Ready([c, d], 1, cfg.uploader.staleAfter))]
    && s.accepted == multiset{} == s.lost
  }

  lemma FirstWaits(cfg: Config, c: Claimed)
    requires cfg.batchSize == 2 && cfg.batchWait > 0
    ensures AfterClaiming(cfg, 0, FRESH_UPLOADER, [c]) == UploaderState([c], Some(0), Idle)
  {
    assert [] + [c] == [c];
  }

  lemma SecondFills(cfg: Config, c: Claimed, d: Claimed, now: nat)
    requires cfg.batchSize == 2
    ensures AfterClaiming(cfg, now, UploaderState([c], Some(0), Idle), [d])
            == UploaderState([], None, Ready([c, d], 1, now))
  {
    assert [c] + [d] == [c, d];
  }

  /** Nobody claims for as long as the lease lasts; then the uploader itself takes the row again. */
  lemma OwnRowIsTaken(cfg: Config) returns (run: seq<Action>, s: System, c: Claimed, d: Claimed)
    requires cfg.batchSize == 2 && cfg.batchWait > 0 && cfg.uploader.maxRowAttempts >= 2
    ensures IsSendingTwice(cfg, run, s, c, d)
  {
    hide Do, AfterClaiming, AllSound;
    var first, wait := OPENING + [ClaimOnly(0)], cfg.uploader.staleAfter;
    var waiting;
    c, waiting := FirstClaim(cfg, 1);
    FirstWaits(cfg, c);
    TickStep(cfg, waiting, wait);
    var stale := waiting.(clock := waiting.clock + wait);
    RunReaches(cfg, 1, first, Tick(wait), waiting, stale);
    SoundAfter(cfg, 1, first + [Tick(wait)], stale);
    d, s := ClaimStepOfOnly(cfg, stale, 0);
    SecondFills(cfg, c, d, wait);
    run := first + [Tick(wait)] + [ClaimOnly(0)];
    RunReaches(cfg, 1, first + [Tick(wait)], ClaimOnly(0), stale, s);
  }

  const EXPIRED: Option<string> := Some("EXPIRED")

  lemma BothAnswered(cfg: Config, run: seq<Action>, s: System, c: Claimed, d: Claimed, x: Option<string>,
                     y: Option<string>)
    returns (next: System)
    requires IsSendingTwice(cfg, run, s, c, d)
    ensures After(cfg, 1, run + [Upload(0, UploadStep.Deliver([x, y]))]) == Some(next) && next.db == s.db
    ensures next.uploaders
            == [UploaderState([], None, Answered([c, d], 1, cfg.uploader.staleAfter, VerdictResults([x, y])))]
    ensures next.accepted == Count(x) + Count(y)
    ensures next.lost == multiset{}
  {
    hide Do, CanUpload, UploadOps, NextUploader, NewlyAccepted, NewlyLost;
    var step := UploadStep.Deliver([x, y]);
    TwoAnswers(cfg, s, c, d, x, y);
    UploadCommits(cfg, s, 0, step, s.db);
    next := AfterUpload(cfg, s, 0, step, s.db);
    RunReaches(cfg, 1, run, Upload(0, step), s, next);
  }

  function Count(verdict: Option<string>): multiset<EventId> {
    if verdict.None? then multiset{ID} else multiset{}
  }

  lemma AnswerToTwo(cfg: Config, c: Claimed, d: Claimed, x: Option<string>, y: Option<string>)
    ensures AnswerTo(cfg, [c, d], [x, y]) == VerdictResults([x, y])
  {
    RenderThenParse(Conversions([c, d]), [x, y], cfg.show);
  }

  lemma AcceptedOfTwo(c: Claimed, d: Claimed, x: Option<string>, y: Option<string>)
    requires c.eventId == d.eventId == ID
    ensures multiset(AcceptedBy([c, d], [x, y])) == Count(x) + Count(y)
  {
    assert [c, d][1..] == [d] && [x, y][1..] == [y];
    assert AcceptedBy([d], [y]) == if y.None? then [ID] else [];
    assert AcceptedBy([c, d], [x, y]) == (if x.None? then [ID] else []) + AcceptedBy([d], [y]);
  }

  lemma TwoAnswers(cfg: Config, s: System, c: Claimed, d: Claimed, x: Option<string>, y: Option<string>)
    requires s.uploaders == [UploaderState([], None, Ready([c, d], 1, cfg.uploader.staleAfter))]
    requires c.eventId == d.eventId == ID
    ensures var up, step := s.uploaders[0], UploadStep.Deliver([x, y]);
            && CanUpload(cfg, s, up, step) && UploadOps(cfg, s, up, step) == []
            && NextUploader(cfg, s, up, step)
               == UploaderState([], None, Answered([c, d], 1, cfg.uploader.staleAfter, VerdictResults([x, y])))
            && NewlyLost(up, step) == multiset{} && NewlyAccepted(up, step) == Count(x) + Count(y)
  {
    hide AnswerTo, AcceptedBy;
    AnswerToTwo(cfg, c, d, x, y);
    AcceptedOfTwo(c, d, x, y);
  }

  lemma TwoVerdicts(c: Claimed, d: Claimed, x: Option<string>, y: Option<string>, now: nat)
    requires c.eventId == d.eventId == ID
    ensures var rows := VerdictResults([x, y]);
            VerdictsOn([c, d], rows, now, ID)
            == [Update(ID, RowChange(c, rows[0]), now), Update(ID, RowChange(d, rows[1]), now)]
    ensures multiset(Ids([c, d]))[ID] == 2
  {
    var ops := ApplyOps([c, d], VerdictResults([x, y]), now);
    assert ops[1..][1..] == [] && ops == [ops[0], ops[1]];
    assert CallsOn(ops[1..], ID) == [ops[1]] + CallsOn([], ID);
    assert Ids([c, d]) == [ID, ID];
  }

  /** A run of a single uploader that does so: the first copy puts the row back, the second buries it. */
  lemma OneUploaderSkipsRetry(cfg: Config) returns (run: seq<Action>)
    requires cfg.batchSize == 2 && cfg.batchWait > 0 && cfg.uploader.maxRowAttempts >= 2
    ensures IsRun(cfg, 1, run) && !AllStraight(StateAfter(cfg, 1, run).db.events)
  {
    var first, s, c, d := OwnRowIsTaken(cfg);
    var answered := BothAnswered(cfg, first, s, c, d, LATE, EXPIRED);
    var half := first + [Upload(0, UploadStep.Deliver([LATE, EXPIRED]))];
    run := half + [Upload(0, Settle)];
    SettlingBothSkips(cfg, half, answered, c, d);
  }

  lemma SettlingBothSkips(cfg: Config, run: seq<Action>, s: System, c: Claimed, d: Claimed)
    requires After(cfg, 1, run) == Some(s) && c.eventId == d.eventId == ID && s.db.Has(ID, Uploading)
    requires s.uploaders
             == [UploaderState([], None, Answered([c, d], 1, cfg.uploader.staleAfter, VerdictResults([LATE, EXPIRED])))]
    ensures IsRun(cfg, 1, run + [Upload(0, Settle)])
    ensures !AllStraight(StateAfter(cfg, 1, run + [Upload(0, Settle)]).db.events)
  {
    hide Do, AllStraight, AllSound;
    SoundAfter(cfg, 1, run, s);
    TwoVerdicts(c, d, LATE, EXPIRED, cfg.uploader.staleAfter);
    assert |"EXPIRED"| != |"TOO_RECENT_CONVERSION"|;
    SettlePossible(cfg, s);
    assert SkipsRetry(s, Upload(0, Settle));
    var next := Do(cfg, s, Upload(0, Settle)).value;
    RunReaches(cfg, 1, run, Upload(0, Settle), s, next);
    if AllStraight(s.db.events) {
      StraightExactlyUntil(cfg, s, Upload(0, Settle));
    } else {
      TablesSoundInEveryRun(cfg, 1, run);
      StaysCrooked(cfg, s, Upload(0, Settle));
    }
  }

  lemma SettlePossible(cfg: Config, s: System)
    requires |s.uploaders| == 1 && s.uploaders[0].flight.Answered?
    requires |s.uploaders[0].flight.rows| == |s.uploaders[0].flight.batch|
    ensures Do(cfg, s, Upload(0, Settle)).Some?
  {
  }

  lemma StaysCrooked(cfg: Config, s: System, a: Action)
    requires IsSoundDb(s.db) && !AllStraight(s.db.events) && Do(cfg, s, a).Some?
    ensures !AllStraight(Do(cfg, s, a).value.db.events)
  {
    hide Do, AllStraight, IsSoundDb;
    StepKeepsTables(cfg, s, a);
    CrookedForGood(s.db, Do(cfg, s, a).value.db);
  }

  /** A run of a single uploader in which the platform accepts an event twice and the gateway settles neither. */
  lemma OneUploaderAcceptsTwice(cfg: Config) returns (run: seq<Action>)
    requires cfg.batchSize == 2 && cfg.batchWait > 0 && cfg.uploader.maxRowAttempts >= 2
    ensures IsRun(cfg, 1, run)
    ensures var s := StateAfter(cfg, 1, run);
            s.db.Has(ID, Uploading) && s.accepted[ID] == 2 && s.lost[ID] == 2
  {
    var first, s, c, d := OwnRowIsTaken(cfg);
    var answered := BothAnswered(cfg, first, s, c, d, None, None);
    var half := first + [Upload(0, UploadStep.Deliver([None, None]))];
    run := half + [Upload(0, Settle)];
    SettlingBothRaises(cfg, half, answered, c, d);
  }

  lemma SettlingBothRaises(cfg: Config, run: seq<Action>, s: System, c: Claimed, d: Claimed)
    requires After(cfg, 1, run) == Some(s) && c.eventId == d.eventId == ID && s.db.Has(ID, Uploading)
    requires s.uploaders
             == [UploaderState([], None, Answered([c, d], 1, cfg.uploader.staleAfter, VerdictResults([None, None])))]
    ensures IsRun(cfg, 1, run + [Upload(0, Settle)])
    ensures var next := StateAfter(cfg, 1, run + [Upload(0, Settle)]);
            next.db == s.db && next.accepted == s.accepted && next.lost == s.lost + multiset{ID, ID}
  {
    hide Do, AllSound, UploadOps;
    SoundAfter(cfg, 1, run, s);
    TwoVerdicts(c, d, None, None, cfg.uploader.staleAfter);
    SettleOf(cfg, s, s.uploaders[0]);
    UploadRaisesIff(cfg, s, 0, Settle);
    UploadRaises(cfg, s, 0, Settle);
    BothUnsettled(c, d, cfg.uploader.staleAfter);
    RunReaches(cfg, 1, run, Upload(0, Settle), s, AfterException(s, Upload(0, Settle)));
  }

  lemma BothUnsettled(c: Claimed, d: Claimed, startedAt: nat)
    requires c.eventId == d.eventId == ID
    ensures UploaderState([], None, Answered([c, d], 1, startedAt, VerdictResults([None, None]))).Unsettled()
        == [ID, ID]
  {
    var rows := VerdictResults([None, None]);
    assert [c, d][1..] == [d] && rows[1..] == [rows[1]];
    assert AcceptedIds([d], [rows[1]]) == [ID];
  }

  // --- A replay that loses its event ---

  const REFUSED_RUN: seq<Action> := OPENING + [ClaimOnly(0)] + [Upload(0, RefuseRequest(""))]

  lemma LeadIsRefused(cfg: Config, uploaders: nat) returns (s: System, c: Claimed)
    requires uploaders >= 1 && cfg.batchSize == 1 && cfg.uploader.maxRowAttempts >= 1
    ensures After(cfg, uploaders, REFUSED_RUN) == Some(s) && IsIdle(s) && s.db.Has(ID, Uploading) && c.eventId == ID
    ensures s.uploaders != [] && s.uploaders[0] == UploaderState([], None, Refused([c], 1, 0, ""))
  {
    hide Do, AfterClaiming;
    var sending;
    c, sending := FirstClaim(cfg, uploaders);
    FirstOfOne(cfg, 0, c);
    OneRowIsRefused(cfg, sending, 0, c, 0, "");
    s := Do(cfg, sending, Upload(0, RefuseRequest(""))).value;
    RunReaches(cfg, uploaders, OPENING + [ClaimOnly(0)], Upload(0, RefuseRequest("")), sending, s);
  }

  /** The lead is refused for good and dead-lettered, with the queue idle. */
  lemma LeadIsBuried(cfg: Config, uploaders: nat) returns (s: System, record: nat)
    requires uploaders >= 1 && cfg.batchSize == 1 && cfg.uploader.maxRowAttempts >= 1
    ensures After(cfg, uploaders, REFUSED_RUN + [Upload(0, GiveUp)]) == Some(s) && IsIdle(s)
    ensures CanReplay(s.db, record) && s.db.dead[record].eventId == ID
  {
    hide Do, After;
    var refused, c := LeadIsRefused(cfg, uploaders);
    s, record := GivenUpForGood(cfg, refused, c);
    RunReaches(cfg, uploaders, REFUSED_RUN, Upload(0, GiveUp), refused, s);
  }

  lemma GivenUpForGood(cfg: Config, s: System, c: Claimed) returns (next: System, record: nat)
    requires s.uploaders != [] && s.uploaders[0] == UploaderState([], None, Refused([c], 1, 0, ""))
    requires s.db.Has(ID, Uploading) && c.eventId == ID && IsIdle(s)
    ensures Do(cfg, s, Upload(0, GiveUp)) == Some(next) && IsIdle(next)
    ensures CanReplay(next.db, record) && next.db.dead[record].eventId == ID
  {
    OneRowIsGivenUp(cfg, s, 0, c, 0, "");
    var db := Step(s.db, Update(ID, DeadLetterRow(Permanent, PermanentRequest(""), Some(""), c.conversion), 0)).value;
    next, record := AfterUpload(cfg, s, 0, GiveUp, db), |s.db.dead|;
  }

  /** A run that ends with an event QUEUED and nothing left that would ever move it, though no publish failed. */
  lemma ReplayLosesEvent(cfg: Config) returns (run: seq<Action>)
    requires cfg.batchSize == 1 && cfg.uploader.maxRowAttempts >= 1
    ensures IsRun(cfg, 1, run) && IsOrphan(StateAfter(cfg, 1, run), ID)
    ensures forall i :: 0 <= i < |run| ==> !run[i].LosePublish?
  {
    hide Do, After, IsOrphan;
    var s, record := LeadIsBuried(cfg, 1);
    var first, ack := REFUSED_RUN + [Upload(0, GiveUp)], s.queue.nextAck;
    ReplayRaceStrands(cfg, 1, first, record);
    run := first + [ReplayPublish(record)] + [Receive] + [ProcessDelivery(ack)] + [AckDelivery(ack)]
           + [ReplayCommit(record)];
  }
}

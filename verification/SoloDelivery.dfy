/**
 * The uploader of the machine, step by step, against the uploader as one call: left alone with its
 * batch, it can bring about exactly what delivering the batch in one go brings about.
 */
module SoloDelivery {
  import opened Wrappers
  import opened Model
  import opened Ledger
  import opened Transactions
  import opened Delivery
  import opened Client
  import opened Pipeline

  /** The state a list of actions leads to, when each of them is possible in turn. */
  ghost function Iterate<S(!new), A(!new)>(step: (S, A) -> Option<S>, s: S, actions: seq<A>): Option<S>
    decreases |actions|
  {
    if actions == [] then Some(s)
    else match step(s, actions[0]) case None => None case Some(next) => Iterate(step, next, actions[1..])
  }

  lemma OneMore<S(!new), A(!new)>(step: (S, A) -> Option<S>, s: S, a: A, next: S, rest: seq<A>, end: S)
    requires step(s, a) == Some(next) && Iterate(step, next, rest) == Some(end)
    ensures Iterate(step, s, [a] + rest) == Some(end)
  {
    assert ([a] + rest)[1..] == rest;
  }

  lemma TwoSteps<S(!new), A(!new)>(step: (S, A) -> Option<S>, s: S, a: A, mid: S, b: A, end: S)
    requires step(s, a) == Some(mid) && step(mid, b) == Some(end)
    ensures Iterate(step, s, [a] + [b]) == Some(end)
  {
    assert [b] + [] == [b];
    OneMore(step, mid, b, end, [], end);
    OneMore(step, s, a, mid, [b], end);
  }

  lemma ThreeSteps<S(!new), A(!new)>(step: (S, A) -> Option<S>, s: S, a: A, m: S, b: A, n: S, c: A, end: S)
    requires step(s, a) == Some(m) && step(m, b) == Some(n) && step(n, c) == Some(end)
    ensures Iterate(step, s, [a] + ([b] + [c])) == Some(end)
  {
    TwoSteps(step, m, b, n, c, end);
    OneMore(step, s, a, m, [b] + [c], end);
  }

  lemma {:induction false} IterateFurther<S(!new), A(!new)>(step: (S, A) -> Option<S>, s: S, a: seq<A>, mid: S,
                                            b: seq<A>, end: S)
    requires Iterate(step, s, a) == Some(mid) && Iterate(step, mid, b) == Some(end)
    ensures Iterate(step, s, a + b) == Some(end)
    decreases |a|
  {
    if a == [] {
      assert a + b == b;
    } else {
      assert (a + b)[1..] == a[1..] + b;
      IterateFurther(step, step(s, a[0]).value, a[1..], mid, b, end);
    }
  }

  ghost function StepOf(cfg: Config): (System, Action) -> Option<System> {
    (s: System, a: Action) => Do(cfg, s, a)
  }

  ghost predicate Leads(cfg: Config, s: System, actions: seq<Action>, end: System) {
    Iterate(StepOf(cfg), s, actions) == Some(end)
  }

  /** The rows the client reads are some verdicts of the platform, rendered and parsed. */
  ghost predicate IsAnswer(cfg: Config, batch: seq<Claimed>, rows: seq<RowResult>) {
    exists verdicts :: |verdicts| == |batch| && rows == AnswerTo(cfg, batch, verdicts)
  }

  /** So is every answer this world brings. */
  ghost predicate ComesFromPlatform(cfg: Config, world: World, batch: seq<Claimed>) {
    forall k: nat :: world.answer(k).Rows? ==> IsAnswer(cfg, batch, world.answer(k).rows)
  }

  /** Retries are recorded at the times of a clock that does not run backwards. */
  ghost predicate TimesPass(world: World, clock: nat, attempt: nat) {
    clock <= world.recordedAt(attempt)
    && forall j: nat, k: nat :: attempt <= j <= k ==> world.recordedAt(j) <= world.recordedAt(k)
  }

  /** The clock, or this uploader sending, retrying or ending its batch. */
  predicate IsSolo(a: Action, u: nat) {
    a.Tick? || (a.Upload? && a.u == u && !a.step.Cycle? && !a.step.Crash?)
  }

  predicate AllSolo(actions: seq<Action>, u: nat) {
    forall i :: 0 <= i < |actions| ==> IsSolo(actions[i], u)
  }

  predicate IsSending(s: System, u: nat, batch: seq<Claimed>, attempt: nat, startedAt: nat) {
    u < |s.uploaders| && s.uploaders[u].flight == Ready(batch, attempt, startedAt)
  }

  // --- Single steps ---

  /** An uploader's step that leaves `up` of the uploader and commits `db`, or raises. */
  predicate IsStep(s: System, u: nat, next: System, db: Db, up: UploaderState)
    requires u < |s.uploaders|
  {
    next.db == db && next.clock == s.clock && next.uploaders == s.uploaders[u := up]
  }

  /** A transaction that committed, leaving `up`, or that raised. */
  predicate IsOutcome(s: System, u: nat, next: System, tx: Option<Db>, up: UploaderState)
    requires u < |s.uploaders|
  {
    match tx
    case Some(db) => IsStep(s, u, next, db, up)
    case None => IsStep(s, u, next, s.db, FRESH_UPLOADER)
  }

  lemma CommittedStep(cfg: Config, s: System, u: nat, step: UploadStep, db: Db) returns (next: System)
    requires u < |s.uploaders| && CanUpload(cfg, s, s.uploaders[u], step)
    requires Run(s.db, UploadOps(cfg, s, s.uploaders[u], step)) == Some(db)
    ensures Do(cfg, s, Upload(u, step)) == Some(next)
    ensures IsStep(s, u, next, db, NextUploader(cfg, s, s.uploaders[u], step))
  {
    UploadCommits(cfg, s, u, step, db);
    next := AfterUpload(cfg, s, u, step, db);
  }

  lemma RaisedStep(cfg: Config, s: System, u: nat, step: UploadStep) returns (next: System)
    requires u < |s.uploaders| && CanUpload(cfg, s, s.uploaders[u], step)
    requires Run(s.db, UploadOps(cfg, s, s.uploaders[u], step)) == None
    ensures Do(cfg, s, Upload(u, step)) == Some(next) && IsStep(s, u, next, s.db, FRESH_UPLOADER)
  {
    UploadRaises(cfg, s, u, step);
    next := AfterException(s, Upload(u, step));
  }

  lemma AnyStep(cfg: Config, s: System, u: nat, step: UploadStep) returns (next: System)
    requires u < |s.uploaders| && CanUpload(cfg, s, s.uploaders[u], step)
    ensures Do(cfg, s, Upload(u, step)) == Some(next)
    ensures IsOutcome(s, u, next, Run(s.db, UploadOps(cfg, s, s.uploaders[u], step)),
                      NextUploader(cfg, s, s.uploaders[u], step))
  {
    match Run(s.db, UploadOps(cfg, s, s.uploaders[u], step)) {
      case Some(db) => next := CommittedStep(cfg, s, u, step, db);
      case None => next := RaisedStep(cfg, s, u, step);
    }
  }

  /** The request fails, is refused, or is answered: the tables stay. */
  lemma RequestStep(cfg: Config, s: System, u: nat, step: UploadStep) returns (next: System)
    requires u < |s.uploaders| && CanUpload(cfg, s, s.uploaders[u], step)
    requires step.Deliver? || step.FailRequest? || step.RefuseRequest?
    ensures Do(cfg, s, Upload(u, step)) == Some(next)
    ensures IsStep(s, u, next, s.db, NextUploader(cfg, s, s.uploaders[u], step))
  {
    assert UploadOps(cfg, s, s.uploaders[u], step) == [];
    next := CommittedStep(cfg, s, u, step, s.db);
  }

  /** The batch ends: settled or given up when the transaction commits, and with the uploader's death when it raises. */
  lemma EndStep(cfg: Config, s: System, u: nat, step: UploadStep) returns (next: System)
    requires u < |s.uploaders| && CanUpload(cfg, s, s.uploaders[u], step) && (step.GiveUp? || step.Settle?)
    ensures Do(cfg, s, Upload(u, step)) == Some(next)
    ensures IsOutcome(s, u, next, Run(s.db, UploadOps(cfg, s, s.uploaders[u], step)), s.uploaders[u].(flight := Idle))
  {
    next := AnyStep(cfg, s, u, step);
  }

  lemma WaitUntil(cfg: Config, s: System, time: nat) returns (next: System)
    requires s.clock <= time
    ensures Do(cfg, s, Tick(time - s.clock)) == Some(next)
    ensures next == s.(clock := time)
  {
    next := s.(clock := time);
  }

  lemma StepWith(cfg: Config, s: System, u: nat, step: UploadStep, ops: seq<Op>,
                 up: UploaderState) returns (next: System)
    requires u < |s.uploaders| && CanUpload(cfg, s, s.uploaders[u], step)
    requires UploadOps(cfg, s, s.uploaders[u], step) == ops && NextUploader(cfg, s, s.uploaders[u], step) == up
    ensures Do(cfg, s, Upload(u, step)) == Some(next) && IsOutcome(s, u, next, Run(s.db, ops), up)
  {
    next := AnyStep(cfg, s, u, step);
  }

  // --- Whole deliveries ---

  /** The tables as the delivery leaves them, and the uploader idle again or, after an exception, fresh. */
  predicate IsDelivered(s: System, u: nat, d: Delivered, end: System)
    requires u < |s.uploaders|
  {
    end.db == d.db
    && end.uploaders == s.uploaders[u := if d.Settled? then s.uploaders[u].(flight := Idle) else FRESH_UPLOADER]
  }

  /** The last attempt, answered row by row. */
  lemma AnsweredAttempt(cfg: Config, s: System, u: nat, batch: seq<Claimed>, startedAt: nat, attempt: nat,
                        verdicts: seq<Option<string>>)
    returns (actions: seq<Action>, end: System)
    requires IsSending(s, u, batch, attempt, startedAt) && |verdicts| == |batch|
    ensures Leads(cfg, s, actions, end) && AllSolo(actions, u)
    ensures match ApplyTx(s.db, batch, AnswerTo(cfg, batch, verdicts), startedAt)
            case Some((db, report)) => IsDelivered(s, u, Settled(db, report, attempt), end)
            case None => IsDelivered(s, u, Raised(s.db, attempt), end)
  {
    hide Do, UploadOps, NextUploader, CanUpload, Iterate, Run;
    AnswerFits(cfg, batch, verdicts);
    RequestOf(cfg, s, s.uploaders[u], UploadStep.Deliver(verdicts));
    var mid := RequestStep(cfg, s, u, UploadStep.Deliver(verdicts));
    SettleOf(cfg, mid, mid.uploaders[u]);
    end := EndStep(cfg, mid, u, Settle);
    actions := [Upload(u, UploadStep.Deliver(verdicts))] + [Upload(u, Settle)];
    TwoSteps(StepOf(cfg), s, Upload(u, UploadStep.Deliver(verdicts)), mid, Upload(u, Settle), end);
  }

  /** The last attempt, ended by a verdict on the whole request: `request` is a failure or a refusal. */
  lemma FailedAttempt(cfg: Config, s: System, u: nat, batch: seq<Claimed>, startedAt: nat, attempt: nat,
                      request: UploadStep, ops: seq<Op>)
    returns (actions: seq<Action>, end: System)
    requires IsSending(s, u, batch, attempt, startedAt)
    requires match request
             case FailRequest(why) =>
               ops == DeadLetterAllOps(s.db, batch, Poison, PoisonRequest(why, attempt), why, startedAt)
             case RefuseRequest(why) =>
               ops == DeadLetterAllOps(s.db, batch, Permanent, PermanentRequest(why), why, startedAt)
             case _ => false
    ensures Leads(cfg, s, actions, end) && AllSolo(actions, u)
    ensures match Run(s.db, ops)
            case Some(db) => IsDelivered(s, u, Settled(db, CycleReport(0, 0, |batch|), attempt), end)
            case None => IsDelivered(s, u, Raised(s.db, attempt), end)
  {
    hide Do, UploadOps, NextUploader, CanUpload, DeadLetterAllOps, Iterate;
    RequestOf(cfg, s, s.uploaders[u], request);
    var mid := RequestStep(cfg, s, u, request);
    GiveUpOf(cfg, mid, mid.uploaders[u]);
    assert UploadOps(cfg, mid, mid.uploaders[u], GiveUp) == ops;
    end := EndStep(cfg, mid, u, GiveUp);
    actions := [Upload(u, request)] + [Upload(u, GiveUp)];
    TwoSteps(StepOf(cfg), s, Upload(u, request), mid, Upload(u, GiveUp), end);
  }

  lemma LastAttempt(cfg: Config, s: System, u: nat, batch: seq<Claimed>, startedAt: nat, world: World, attempt: nat)
    returns (actions: seq<Action>, end: System)
    requires IsSending(s, u, batch, attempt, startedAt) && ComesFromPlatform(cfg, world, batch)
    requires world.answer(attempt).TransientFailure? ==> attempt >= cfg.uploader.maxAttempts || world.late(attempt)
    ensures Leads(cfg, s, actions, end) && AllSolo(actions, u)
    ensures IsDelivered(s, u, Delivery.Deliver(s.db, batch, startedAt, world, attempt, cfg.uploader.maxAttempts), end)
  {
    match world.answer(attempt) {
      case Rows(rows) =>
        var verdicts :| |verdicts| == |batch| && rows == AnswerTo(cfg, batch, verdicts);
        actions, end := AnsweredAttempt(cfg, s, u, batch, startedAt, attempt, verdicts);
      case PermanentFailure(why) =>
        actions, end := FailedAttempt(cfg, s, u, batch, startedAt, attempt, RefuseRequest(why),
          DeadLetterAllOps(s.db, batch, Permanent, PermanentRequest(why), why, startedAt));
      case TransientFailure(why) =>
        actions, end := FailedAttempt(cfg, s, u, batch, startedAt, attempt, FailRequest(why),
          DeadLetterAllOps(s.db, batch, Poison, PoisonRequest(why, attempt), why, startedAt));
    }
  }

  lemma AnswerFits(cfg: Config, batch: seq<Claimed>, verdicts: seq<Option<string>>)
    requires |verdicts| == |batch|
    ensures |AnswerTo(cfg, batch, verdicts)| == |batch|
  {
    RenderThenParse(Conversions(batch), verdicts, cfg.show);
  }

  /** An attempt that is followed by another one. */
  lemma RetriedAttempt(cfg: Config, s: System, u: nat, batch: seq<Claimed>, startedAt: nat, attempt: nat, why: string,
                       at: nat)
    returns (actions: seq<Action>, next: System)
    requires IsSending(s, u, batch, attempt, startedAt) && attempt < cfg.uploader.maxAttempts && s.clock <= at
    ensures Leads(cfg, s, actions, next) && AllSolo(actions, u)
    ensures IsOutcome(s.(clock := at), u, next, Run(s.db, RetryOps(s.db, batch, why, at)),
                      s.uploaders[u].(flight := Ready(batch, attempt + 1, startedAt)))
  {
    hide Do, UploadOps, NextUploader, CanUpload;
    var failed := RequestFails(cfg, s, u, batch, startedAt, attempt, why);
    var waited := WaitUntil(cfg, failed, at);
    var up := waited.uploaders[u];
    RetryOf(cfg, waited, up);
    next := StepWith(cfg, waited, u, Retry, RetryOps(s.db, batch, why, at),
                     up.(flight := Ready(batch, attempt + 1, startedAt)));
    actions := [Upload(u, FailRequest(why))] + ([Tick(at - failed.clock)] + [Upload(u, Retry)]);
    ThreeSteps(StepOf(cfg), s, Upload(u, FailRequest(why)), failed, Tick(at - failed.clock), waited, Upload(u, Retry),
               next);
  }

  lemma RequestFails(cfg: Config, s: System, u: nat, batch: seq<Claimed>, startedAt: nat, attempt: nat, why: string)
    returns (next: System)
    requires IsSending(s, u, batch, attempt, startedAt)
    ensures Do(cfg, s, Upload(u, FailRequest(why))) == Some(next)
    ensures IsStep(s, u, next, s.db, s.uploaders[u].(flight := Failed(batch, attempt, startedAt, why)))
  {
    RequestOf(cfg, s, s.uploaders[u], FailRequest(why));
    next := RequestStep(cfg, s, u, FailRequest(why));
  }

  lemma DeliverRetries(db: Db, batch: seq<Claimed>, now: nat, world: World, attempt: nat, maxAttempts: nat)
    requires world.answer(attempt).TransientFailure? && attempt < maxAttempts && !world.late(attempt)
    ensures Delivery.Deliver(db, batch, now, world, attempt, maxAttempts)
            == match Run(db, RetryOps(db, batch, world.answer(attempt).why, world.recordedAt(attempt)))
               case None => Raised(db, attempt)
               case Some(next) => Delivery.Deliver(next, batch, now, world, attempt + 1, maxAttempts)
  {
  }

  /** Any delivery in one call is some run of this uploader's own steps and of the clock. */
  lemma {:induction false} StepsDeliver(cfg: Config, s: System, u: nat, batch: seq<Claimed>, startedAt: nat,
                                        world: World, attempt: nat)
    returns (actions: seq<Action>, end: System)
    requires IsSending(s, u, batch, attempt, startedAt) && ComesFromPlatform(cfg, world, batch)
    requires TimesPass(world, s.clock, attempt)
    ensures Leads(cfg, s, actions, end) && AllSolo(actions, u)
    ensures IsDelivered(s, u, Delivery.Deliver(s.db, batch, startedAt, world, attempt, cfg.uploader.maxAttempts), end)
    decreases cfg.uploader.maxAttempts - attempt
  {
    hide Delivery.Deliver, ComesFromPlatform, RetryOps, Run, Iterate;
    if world.answer(attempt).TransientFailure? && attempt < cfg.uploader.maxAttempts && !world.late(attempt) {
      var why, at := world.answer(attempt).why, world.recordedAt(attempt);
      DeliverRetries(s.db, batch, startedAt, world, attempt, cfg.uploader.maxAttempts);
      actions, end := RetriedAttempt(cfg, s, u, batch, startedAt, attempt, why, at);
      if Run(s.db, RetryOps(s.db, batch, why, at)).Some? {
        var first, mid := actions, end;
        var rest;
        rest, end := StepsDeliver(cfg, mid, u, batch, startedAt, world, attempt + 1);
        actions := first + rest;
        IterateFurther(StepOf(cfg), s, first, mid, rest, end);
      }
    } else {
      actions, end := LastAttempt(cfg, s, u, batch, startedAt, world, attempt);
    }
  }

  // --- And conversely ---

  /** What the world must have brought to the attempt for the flight to stand where it does. */
  predicate Brought(flight: Flight, world: World)
    requires !flight.Idle?
  {
    match flight
    case Failed(_, k, _, why) => world.answer(k) == TransientFailure(why)
    case Refused(_, k, _, why) => world.answer(k) == PermanentFailure(why)
    case Answered(_, k, _, rows) => world.answer(k) == Rows(rows)
    case _ => true
  }

  /** A world in which every attempt ends like this one. */
  function Always(answer: Answer, late: bool, at: nat): World {
    World(_ => answer, _ => late, _ => at)
  }

  /** The same world, but for attempt k, which fails and is retried at this time. */
  function RetriedAt(world: World, k: nat, why: string, at: nat): World {
    World((j: nat) => if j == k then TransientFailure(why) else world.answer(j),
          (j: nat) => if j == k then false else world.late(j),
          (j: nat) => TimeOf(world, k, at, j))
  }

  function TimeOf(world: World, k: nat, at: nat, j: nat): nat {
    if j == k then at else world.recordedAt(j)
  }

  /** Only the attempts still to come matter. */
  lemma {:induction false} LaterWorldMatters(db: Db, batch: seq<Claimed>, now: nat, world: World, k: nat, why: string,
                                             at: nat, attempt: nat, maxAttempts: nat)
    requires k < attempt
    ensures Delivery.Deliver(db, batch, now, RetriedAt(world, k, why, at), attempt, maxAttempts)
            == Delivery.Deliver(db, batch, now, world, attempt, maxAttempts)
    decreases maxAttempts - attempt
  {
    if world.answer(attempt).TransientFailure? && attempt < maxAttempts && !world.late(attempt) {
      var tx := Run(db, RetryOps(db, batch, world.answer(attempt).why, world.recordedAt(attempt)));
      if tx.Some? {
        LaterWorldMatters(tx.value, batch, now, world, k, why, at, attempt + 1, maxAttempts);
      }
    }
  }

  /** An idle uploader left alone does nothing. */
  lemma {:induction false} IdleOnlyWaits(cfg: Config, s: System, u: nat, actions: seq<Action>, end: System)
    requires u < |s.uploaders| && s.uploaders[u].flight.Idle? && AllSolo(actions, u) && Leads(cfg, s, actions, end)
    ensures end.db == s.db && end.uploaders == s.uploaders
    decreases |actions|
  {
    if actions != [] {
      IdleTicks(cfg, s, u, actions[0]);
      var next := Do(cfg, s, actions[0]).value;
      IdleOnlyWaits(cfg, next, u, actions[1..], end);
    }
  }

  lemma IdleTicks(cfg: Config, s: System, u: nat, a: Action)
    requires u < |s.uploaders| && s.uploaders[u].flight.Idle? && IsSolo(a, u) && Do(cfg, s, a).Some?
    ensures a.Tick? && Do(cfg, s, a).value.db == s.db && Do(cfg, s, a).value.uploaders == s.uploaders
  {
  }

  /** The delivery of what is in flight, from where it stands. */
  function DeliveryOf(cfg: Config, db: Db, flight: Flight, world: World): Delivered
    requires !flight.Idle?
  {
    Delivery.Deliver(db, flight.batch, flight.startedAt, world, flight.attempt, cfg.uploader.maxAttempts)
  }

  /** What the client has read so far is the platform's answer. */
  ghost predicate IsFaithful(cfg: Config, flight: Flight) {
    flight.Answered? ==> IsAnswer(cfg, flight.batch, flight.rows)
  }

  /** A world that brings what stands in the flight already, and from now on only what it can bring. */
  ghost predicate Fits(cfg: Config, world: World, flight: Flight, clock: nat)
    requires !flight.Idle?
  {
    Brought(flight, world) && ComesFromPlatform(cfg, world, flight.batch) && TimesPass(world, clock, flight.attempt)
  }

  /** A step that does not end the flight, changes no table, and at most puts a request's end into the flight. */
  predicate GoesOn(flight: Flight, s: System, u: nat, next: System)
    requires u < |s.uploaders| && !flight.Idle?
  {
    && next.db == s.db && next.clock >= s.clock && |next.uploaders| == |s.uploaders|
    && next.uploaders == s.uploaders[u := s.uploaders[u].(flight := next.uploaders[u].flight)]
    && var later := next.uploaders[u].flight;
       && !later.Idle? && later.batch == flight.batch && later.attempt == flight.attempt
       && later.startedAt == flight.startedAt && (flight.Ready? || later == flight)
  }

  /** A request, whatever becomes of it, goes on with the batch. */
  lemma RequestGoesOn(cfg: Config, s: System, u: nat, step: UploadStep, next: System)
    requires u < |s.uploaders| && CanUpload(cfg, s, s.uploaders[u], step)
    requires step.Deliver? || step.LoseResponse? || step.FailRequest? || step.RefuseRequest?
    requires Do(cfg, s, Upload(u, step)) == Some(next)
    ensures s.uploaders[u].flight.Ready?
    ensures GoesOn(s.uploaders[u].flight, s, u, next) && IsFaithful(cfg, next.uploaders[u].flight)
  {
    hide AnswerTo, NewlyAccepted, NewlyLost, NewlyCarried;
    UploadCommits(cfg, s, u, step, s.db);
    if step.Deliver? {
      assert next.uploaders[u].flight.rows == AnswerTo(cfg, s.uploaders[u].flight.batch, step.verdicts);
    }
  }

  /** The first step of a solo run while a batch is in flight. */
  lemma SoloStep(cfg: Config, s: System, u: nat, a: Action)
    requires u < |s.uploaders| && !s.uploaders[u].flight.Idle? && IsFaithful(cfg, s.uploaders[u].flight)
    requires IsSolo(a, u) && Do(cfg, s, a).Some?
    ensures var next := Do(cfg, s, a).value;
            || (GoesOn(s.uploaders[u].flight, s, u, next) && IsFaithful(cfg, next.uploaders[u].flight))
            || (a.Upload? && CanUpload(cfg, s, s.uploaders[u], a.step)
                && (a.step.Retry? || a.step.GiveUp? || a.step.Settle?))
  {
    hide CanUpload, AfterUpload, UploadOps, NextUploader;
    var next := Do(cfg, s, a).value;
    match a {
      case Tick(_) =>
      case Upload(_, Retry) =>
      case Upload(_, GiveUp) =>
      case Upload(_, Settle) =>
      case Upload(_, step) => RequestGoesOn(cfg, s, u, step, next);
    }
  }

  /** The delivery from where the flight stands is the delivery from where it stood. */
  lemma DeliveredThen(cfg: Config, s: System, u: nat, next: System, world: World, end: System)
    requires u < |s.uploaders| && !s.uploaders[u].flight.Idle? && GoesOn(s.uploaders[u].flight, s, u, next)
    requires Fits(cfg, world, next.uploaders[u].flight, next.clock)
    requires IsDelivered(next, u, DeliveryOf(cfg, next.db, next.uploaders[u].flight, world), end)
    ensures Fits(cfg, world, s.uploaders[u].flight, s.clock)
    ensures IsDelivered(s, u, DeliveryOf(cfg, s.db, s.uploaders[u].flight, world), end)
  {
    hide Delivery.Deliver, ComesFromPlatform;
    assert next.uploaders[u].(flight := Idle) == s.uploaders[u].(flight := Idle);
  }

  /** A batch given up: the delivery whose last attempt is this one. */
  lemma GivenUpNow(cfg: Config, s: System, u: nat, next: System, rest: seq<Action>, end: System)
    returns (world: World)
    requires u < |s.uploaders| && (s.uploaders[u].flight.Failed? || s.uploaders[u].flight.Refused?)
    requires CanUpload(cfg, s, s.uploaders[u], GiveUp)
    requires Do(cfg, s, Upload(u, GiveUp)) == Some(next) && Leads(cfg, next, rest, end) && AllSolo(rest, u)
    ensures Fits(cfg, world, s.uploaders[u].flight, s.clock)
    ensures IsDelivered(s, u, DeliveryOf(cfg, s.db, s.uploaders[u].flight, world), end)
  {
    hide Do, UploadOps, NextUploader, CanUpload, DeadLetterAllOps;
    var up := s.uploaders[u];
    GiveUpOf(cfg, s, up);
    var after := EndStep(cfg, s, u, GiveUp);
    IdleOnlyWaits(cfg, next, u, rest, end);
    world := Always(if up.flight.Failed? then TransientFailure(up.flight.why) else PermanentFailure(up.flight.why),
                    true, s.clock);
  }

  /** A batch settled: likewise. */
  lemma SettledNow(cfg: Config, s: System, u: nat, next: System, rest: seq<Action>, end: System)
    returns (world: World)
    requires u < |s.uploaders| && s.uploaders[u].flight.Answered? && IsFaithful(cfg, s.uploaders[u].flight)
    requires |s.uploaders[u].flight.rows| == |s.uploaders[u].flight.batch|
    requires Do(cfg, s, Upload(u, Settle)) == Some(next) && Leads(cfg, next, rest, end) && AllSolo(rest, u)
    ensures Fits(cfg, world, s.uploaders[u].flight, s.clock)
    ensures IsDelivered(s, u, DeliveryOf(cfg, s.db, s.uploaders[u].flight, world), end)
  {
    hide Do, UploadOps, NextUploader, CanUpload, ApplyOps;
    var up := s.uploaders[u];
    SettleOf(cfg, s, up);
    var after := EndStep(cfg, s, u, Settle);
    IdleOnlyWaits(cfg, next, u, rest, end);
    world := Always(Rows(up.flight.rows), true, s.clock);
  }

  /** A batch retried, and delivered after that or not at all. */
  lemma RetriedNow(cfg: Config, s: System, u: nat, next: System, later: World, end: System) returns (world: World)
    requires u < |s.uploaders| && s.uploaders[u].flight.Failed?
    requires s.uploaders[u].flight.attempt < cfg.uploader.maxAttempts
    requires var flight := s.uploaders[u].flight;
             && IsStep(s, u, next, next.db,
                       s.uploaders[u].(flight := Ready(flight.batch, flight.attempt + 1, flight.startedAt)))
             && Run(s.db, RetryOps(s.db, flight.batch, flight.why, s.clock)) == Some(next.db)
    requires Fits(cfg, later, next.uploaders[u].flight, next.clock)
    requires IsDelivered(next, u, DeliveryOf(cfg, next.db, next.uploaders[u].flight, later), end)
    ensures Fits(cfg, world, s.uploaders[u].flight, s.clock)
    ensures IsDelivered(s, u, DeliveryOf(cfg, s.db, s.uploaders[u].flight, world), end)
  {
    hide RetryOps, IsAnswer;
    var flight, up := s.uploaders[u].flight, s.uploaders[u];
    world := RetriedAt(later, flight.attempt, flight.why, s.clock);
    LaterWorldMatters(next.db, flight.batch, flight.startedAt, later, flight.attempt, flight.why, s.clock,
                      flight.attempt + 1, cfg.uploader.maxAttempts);
    assert next.uploaders[u].(flight := Idle) == up.(flight := Idle);
    assert DeliveryOf(cfg, s.db, flight, world) == DeliveryOf(cfg, next.db, next.uploaders[u].flight, later);
  }

  /** A retry whose transaction raises ends the delivery. */
  lemma RetryRaised(cfg: Config, s: System, u: nat, next: System, rest: seq<Action>, end: System)
    returns (world: World)
    requires u < |s.uploaders| && s.uploaders[u].flight.Failed?
    requires s.uploaders[u].flight.attempt < cfg.uploader.maxAttempts
    requires Run(s.db, RetryOps(s.db, s.uploaders[u].flight.batch, s.uploaders[u].flight.why, s.clock)) == None
    requires IsStep(s, u, next, s.db, FRESH_UPLOADER) && Leads(cfg, next, rest, end) && AllSolo(rest, u)
    ensures Fits(cfg, world, s.uploaders[u].flight, s.clock)
    ensures IsDelivered(s, u, DeliveryOf(cfg, s.db, s.uploaders[u].flight, world), end)
  {
    hide RetryOps, Do;
    IdleOnlyWaits(cfg, next, u, rest, end);
    world := Always(TransientFailure(s.uploaders[u].flight.why), false, s.clock);
  }

  /** Any run of this uploader's own steps and of the clock that ends its batch is a delivery in one call. */
  lemma {:induction false} StepsAreDelivery(cfg: Config, s: System, u: nat, actions: seq<Action>, end: System)
    returns (world: World)
    requires u < |s.uploaders| && !s.uploaders[u].flight.Idle? && IsFaithful(cfg, s.uploaders[u].flight)
    requires Leads(cfg, s, actions, end) && AllSolo(actions, u)
    requires u < |end.uploaders| && end.uploaders[u].flight.Idle?
    ensures Fits(cfg, world, s.uploaders[u].flight, s.clock)
    ensures IsDelivered(s, u, DeliveryOf(cfg, s.db, s.uploaders[u].flight, world), end)
    decreases |actions|
  {
    hide Do, UploadOps, NextUploader, CanUpload, IsAnswer, DeliveryOf, IsDelivered, ComesFromPlatform, RetryOps;
    assert actions != [];
    var a, rest := actions[0], actions[1..];
    var next := Do(cfg, s, a).value;
    SoloStep(cfg, s, u, a);
    if GoesOn(s.uploaders[u].flight, s, u, next) && IsFaithful(cfg, next.uploaders[u].flight) {
      world := StepsAreDelivery(cfg, next, u, rest, end);
      DeliveredThen(cfg, s, u, next, world, end);
    } else {
      StepGuard(cfg, s, s.uploaders[u], a.step);
      match a.step {
        case GiveUp => world := GivenUpNow(cfg, s, u, next, rest, end);
        case Settle => world := SettledNow(cfg, s, u, next, rest, end);
        case Retry =>
          RetryOf(cfg, s, s.uploaders[u]);
          var after := AnyStep(cfg, s, u, Retry);
          if next.uploaders[u].flight.Idle? {
            world := RetryRaised(cfg, s, u, next, rest, end);
          } else {
            var later := StepsAreDelivery(cfg, next, u, rest, end);
            world := RetriedNow(cfg, s, u, next, later, end);
          }
      }
    }
  }

  /** What a retry, a settlement and a giving up need of the flight. */
  lemma StepGuard(cfg: Config, s: System, up: UploaderState, step: UploadStep)
    requires CanUpload(cfg, s, up, step)
    ensures step.Retry? ==> up.flight.Failed? && up.flight.attempt < cfg.uploader.maxAttempts
    ensures step.GiveUp? ==> up.flight.Failed? || up.flight.Refused?
    ensures step.Settle? ==> up.flight.Answered? && |up.flight.rows| == |up.flight.batch|
  {
  }
}

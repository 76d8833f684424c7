/**
 * The whole pipeline as one machine: ingest, queue, workers, uploaders, platform and operator, each
 * acting in atomic steps on shared state. Everything the world decides is part of the action.
 */
module Pipeline {
  import opened Wrappers
  import opened Status
  import opened Identifiers
  import opened Model
  import opened Ledger
  import opened Transactions
  import opened Processor
  import opened Queue
  import opened Batcher
  import opened Uploader
  import opened Json
  import opened Platform
  import opened Client

  datatype Config = Config(lib: Libraries, show: Json -> string, uploader: UploaderConfig, batchSize: nat,
                           batchWait: nat)

  // --- Uploaders ---

  /** Where the batch in hand stands: about to be sent, failed, refused as a whole, or answered. */
  datatype Flight =
    | Idle
    | Ready(batch: seq<Claimed>, attempt: nat, startedAt: nat)
    | Failed(batch: seq<Claimed>, attempt: nat, startedAt: nat, why: string)
    | Refused(batch: seq<Claimed>, attempt: nat, startedAt: nat, why: string)
    | Answered(batch: seq<Claimed>, attempt: nat, startedAt: nat, rows: seq<RowResult>)

  datatype UploaderState = UploaderState(waiting: seq<Claimed>, oldestAt: Option<nat>, flight: Flight) {
    function Batch(): seq<Claimed> {
      if flight.Idle? then [] else flight.batch
    }

    /** Every row this uploader believes it owns. */
    function Holding(): seq<Claimed> {
      waiting + Batch()
    }

    /** The accepted rows of an answer that is not settled yet. */
    function Unsettled(): seq<EventId> {
      if flight.Answered? && |flight.rows| == |flight.batch| then AcceptedIds(flight.batch, flight.rows) else []
    }
  }

  const FRESH_UPLOADER: UploaderState := UploaderState([], None, Idle)

  function AcceptedIds(batch: seq<Claimed>, rows: seq<RowResult>): seq<EventId>
    requires |batch| == |rows|
  {
    if batch == [] then []
    else (if rows[0].ok then [batch[0].eventId] else []) + AcceptedIds(batch[1..], rows[1..])
  }

  function Conversions(batch: seq<Claimed>): (rows: seq<ConversionRow>)
    ensures |rows| == |batch|
  {
    seq(|batch|, i requires 0 <= i < |batch| => batch[i].conversion)
  }

  /** The rows the client reads from the platform's answer to this batch. */
  function AnswerTo(cfg: Config, batch: seq<Claimed>, verdicts: seq<Option<string>>): seq<RowResult>
    requires |verdicts| == |batch|
  {
    RenderThenParse(Conversions(batch), verdicts, cfg.show);
    ResponseRows(Render(Conversions(batch), verdicts), |batch|, cfg.show).value
  }

  // --- The state ---

  /**
   * `committed` holds deliveries whose transaction is done but not acked; `publishing` leads whose row is
   * committed but whose message is not out; `replaying` records whose message is out but whose row is not
   * committed. The last four are bookkeeping: acceptances by the platform, acceptances that the gateway
   * never got to settle, requests that carried each event since it was last queued, and the leads
   * as they came in.
   */
  datatype System = System(
    clock: nat, db: Db, queue: QueueState, committed: set<nat>, publishing: map<EventId, Message>,
    replaying: set<nat>, uploaders: seq<UploaderState>,
    accepted: multiset<EventId>, lost: multiset<EventId>, carried: multiset<EventId>,
    ingested: map<EventId, LeadEvent>)

  function Initial(uploaders: nat): System {
    System(0, Db(map[], []), EMPTY_QUEUE, {}, map[], {}, seq(uploaders, _ => FRESH_UPLOADER),
           multiset{}, multiset{}, multiset{}, map[])
  }

  // --- The actions ---

  datatype UploadStep =
    | Cycle(ids: seq<EventId>, locked: set<EventId>)
    | Deliver(verdicts: seq<Option<string>>)
    | LoseResponse(verdicts: seq<Option<string>>, why: string)
    | FailRequest(why: string)
    | RefuseRequest(why: string)
    | Retry
    | GiveUp
    | Settle
    | Crash

  datatype Action =
    | Tick(seconds: nat)
    | IngestLead(lead: LeadEvent)
    | IngestInvalid(id: EventId, source: Source, sourceEventId: string, errors: string)
    | PublishLead(id: EventId)
    | LosePublish(id: EventId)
    | Receive
    | ProcessDelivery(ack: nat)
    | AckDelivery(ack: nat)
    | ReturnDelivery(ack: nat)
    | Republish(id: EventId)
    | ReplayPublish(record: nat)
    | ReplayCommit(record: nat)
    | ReplayAbort(record: nat)
    | Upload(u: nat, step: UploadStep)

  ghost predicate CanUpload(cfg: Config, s: System, up: UploaderState, step: UploadStep) {
    match step
    case Cycle(ids, locked) =>
      && up.flight.Idle? && |up.waiting| <= cfg.batchSize
      && IsSelection(s.db.events, s.clock, cfg.batchSize - |up.waiting|, cfg.uploader.retryAfter,
                     cfg.uploader.staleAfter, locked, ids)
    case Deliver(verdicts) => up.flight.Ready? && |verdicts| == |up.flight.batch|
    case LoseResponse(verdicts, _) => up.flight.Ready? && |verdicts| == |up.flight.batch|
    case FailRequest(_) => up.flight.Ready?
    case RefuseRequest(_) => up.flight.Ready?
    case Retry => up.flight.Failed? && up.flight.attempt < cfg.uploader.maxAttempts
    case GiveUp => up.flight.Failed? || up.flight.Refused?
    case Settle => up.flight.Answered? && |up.flight.rows| == |up.flight.batch|
    case Crash => true
  }

  ghost predicate IsEnabled(cfg: Config, s: System, a: Action) {
    match a
    case Tick(_) => true
    case IngestLead(_) => true
    case IngestInvalid(_, _, _, _) => true
    case PublishLead(id) => id in s.publishing
    case LosePublish(id) => id in s.publishing
    case Receive => s.queue.ready != []
    case ProcessDelivery(ack) => ack in s.queue.inflight && ack !in s.committed
    case AckDelivery(ack) => ack in s.queue.inflight && ack in s.committed
    case ReturnDelivery(ack) => ack in s.queue.inflight
    case Republish(id) => id in s.db.events && IsRecoverable(s.db.events[id])
    case ReplayPublish(record) => CanReplay(s.db, record)
    case ReplayCommit(record) => record in s.replaying && CanReplay(s.db, record)
    case ReplayAbort(record) => record in s.replaying
    case Upload(u, step) => u < |s.uploaders| && CanUpload(cfg, s, s.uploaders[u], step)
  }

  function ClaimedTables(db: Db, ids: seq<EventId>, now: nat): Db {
    Run(db, ClaimOps(ids, now)).GetOr(db)
  }

  /** The ledger calls an uploader's step makes, all in one transaction. */
  function UploadOps(cfg: Config, s: System, up: UploaderState, step: UploadStep): seq<Op> {
    match step
    case Cycle(ids, _) =>
      var mid := ClaimedTables(s.db, ids, s.clock);
      ClaimOps(ids, s.clock)
      + if HaveConversions(mid, ids)
        then CeilingOps(mid, ids, s.clock, cfg.uploader.maxRowAttempts, cfg.uploader.customerId) else [Abort]
    case Retry => if up.flight.Failed? then RetryOps(s.db, up.flight.batch, up.flight.why, s.clock) else []
    case GiveUp =>
      (match up.flight
       case Failed(batch, attempt, startedAt, why) =>
         DeadLetterAllOps(s.db, batch, Poison, PoisonRequest(why, attempt), why, startedAt)
       case Refused(batch, _, startedAt, why) =>
         DeadLetterAllOps(s.db, batch, Permanent, PermanentRequest(why), why, startedAt)
       case _ => [])
    case Settle =>
      if up.flight.Answered? && |up.flight.rows| == |up.flight.batch|
      then ApplyOps(up.flight.batch, up.flight.rows, up.flight.startedAt) else []
    case _ => []
  }

  /** The ledger calls an action makes, all in one transaction. */
  function LedgerOps(cfg: Config, s: System, a: Action): seq<Op> {
    match a
    case IngestLead(lead) => [InsertValidated(lead, s.clock)]
    case IngestInvalid(id, source, sourceEventId, errors) =>
      [InsertRejected(id, source, sourceEventId, errors, s.clock)]
    case ProcessDelivery(ack) =>
      if ack in s.queue.inflight then ProcessOps(cfg.lib, s.db, s.queue.inflight[ack].message, s.clock) else []
    case ReplayCommit(record) => [Replay(record, s.clock)]
    case Upload(u, step) => if u < |s.uploaders| then UploadOps(cfg, s, s.uploaders[u], step) else []
    case _ => []
  }

  // --- The effects ---

  /** What waits after a claim, and the batch that is sent if it is full or due. */
  function AfterClaiming(cfg: Config, now: nat, up: UploaderState, claimed: seq<Claimed>): UploaderState {
    match Batched(BatchState(up.waiting, up.oldestAt), claimed, now, cfg.batchSize, cfg.batchWait)
    case (waits, Some(batch)) => UploaderState(waits.items, waits.oldestAt, Ready(batch, 1, now))
    case (waits, None) => UploaderState(waits.items, waits.oldestAt, Idle)
  }

  function NextUploader(cfg: Config, s: System, up: UploaderState, step: UploadStep): UploaderState {
    match step
    case Cycle(ids, _) =>
      var mid := ClaimedTables(s.db, ids, s.clock);
      var claimed := if HaveConversions(mid, ids)
                     then ClaimedOf(mid, ids, cfg.uploader.maxRowAttempts, cfg.uploader.customerId) else [];
      AfterClaiming(cfg, s.clock, up, claimed)
    case Deliver(verdicts) =>
      if up.flight.Ready? && |verdicts| == |up.flight.batch|
      then up.(flight := Answered(up.flight.batch, up.flight.attempt, up.flight.startedAt,
                                  AnswerTo(cfg, up.flight.batch, verdicts)))
      else up
    case LoseResponse(_, why) => FailedWith(up, why)
    case FailRequest(why) => FailedWith(up, why)
    case RefuseRequest(why) =>
      if up.flight.Ready?
      then up.(flight := Refused(up.flight.batch, up.flight.attempt, up.flight.startedAt, why)) else up
    case Retry =>
      if up.flight.Failed?
      then up.(flight := Ready(up.flight.batch, up.flight.attempt + 1, up.flight.startedAt)) else up
    case GiveUp => up.(flight := Idle)
    case Settle => up.(flight := Idle)
    case Crash => FRESH_UPLOADER
  }

  function FailedWith(up: UploaderState, why: string): UploaderState {
    if up.flight.Ready? then up.(flight := Failed(up.flight.batch, up.flight.attempt, up.flight.startedAt, why)) else up
  }

  /** The rows of the batch without an error, by event id. */
  function AcceptedBy(batch: seq<Claimed>, verdicts: seq<Option<string>>): seq<EventId>
    requires |batch| == |verdicts|
  {
    if batch == [] then []
    else (if verdicts[0].None? then [batch[0].eventId] else []) + AcceptedBy(batch[1..], verdicts[1..])
  }

  /** What the platform accepts in this step. */
  function NewlyAccepted(up: UploaderState, step: UploadStep): multiset<EventId> {
    if (step.Deliver? || step.LoseResponse?) && up.flight.Ready? && |step.verdicts| == |up.flight.batch|
    then multiset(AcceptedBy(up.flight.batch, step.verdicts)) else multiset{}
  }

  /** The acceptances that this step makes impossible to settle. */
  function NewlyLost(up: UploaderState, step: UploadStep): multiset<EventId> {
    if step.LoseResponse? then NewlyAccepted(up, step)
    else if step.Crash? then multiset(up.Unsettled())
    else multiset{}
  }

  /** The events carried by the request this step makes, if it makes one. */
  function NewlyCarried(up: UploaderState, step: UploadStep): multiset<EventId> {
    if up.flight.Ready? && (step.Deliver? || step.LoseResponse? || step.FailRequest? || step.RefuseRequest?)
    then multiset(Ids(up.flight.batch)) else multiset{}
  }

  function AfterUpload(cfg: Config, s: System, u: nat, step: UploadStep, db: Db): System
    requires u < |s.uploaders|
  {
    var up := s.uploaders[u];
    s.(db := db,
       uploaders := s.uploaders[u := NextUploader(cfg, s, up, step)],
       accepted := s.accepted + NewlyAccepted(up, step),
       lost := s.lost + NewlyLost(up, step),
       carried := s.carried + NewlyCarried(up, step))
  }

  /** The state after an action whose transaction gave `db`. */
  function AfterAction(cfg: Config, s: System, a: Action, db: Db): System
    requires a.Upload? ==> a.u < |s.uploaders|
  {
    match a
    case Tick(seconds) => s.(clock := s.clock + seconds)
    case IngestLead(lead) =>
      if lead.eventId in s.db.events then s
      else s.(db := db,
              publishing := s.publishing[lead.eventId := Message(lead.eventId, lead.identifiers, s.clock)],
              ingested := s.ingested[lead.eventId := lead])
    case IngestInvalid(_, _, _, _) => s.(db := db)
    case PublishLead(id) =>
      if id in s.publishing
      then s.(queue := Publish(s.queue, s.publishing[id]), publishing := s.publishing - {id}) else s
    case LosePublish(id) => s.(publishing := s.publishing - {id})
    case Receive => s.(queue := ReceiveOne(s.queue))
    case ProcessDelivery(ack) => s.(db := db, committed := s.committed + {ack})
    case AckDelivery(ack) => s.(queue := Ack(s.queue, ack), committed := s.committed - {ack})
    case ReturnDelivery(ack) => s.(queue := Nack(s.queue, ack), committed := s.committed - {ack})
    case Republish(id) => s.(queue := Publish(s.queue, Message(id, NO_IDENTIFIERS, s.clock)))
    case ReplayPublish(record) =>
      if record < |s.db.dead|
      then s.(queue := Publish(s.queue, Message(s.db.dead[record].eventId, NO_IDENTIFIERS, s.clock)),
              replaying := s.replaying + {record})
      else s
    case ReplayCommit(record) =>
      s.(db := db, replaying := s.replaying - {record},
         carried := if record < |s.db.dead| then s.carried[s.db.dead[record].eventId := 0] else s.carried)
    case ReplayAbort(record) => s.(replaying := s.replaying - {record})
    case Upload(u, step) => AfterUpload(cfg, s, u, step, db)
  }

  /** A transaction that raised: the tables stay, and an uploader dies with what it held in memory. */
  function AfterException(s: System, a: Action): System
    requires a.Upload? ==> a.u < |s.uploaders|
  {
    if a.Upload?
    then s.(uploaders := s.uploaders[a.u := FRESH_UPLOADER], lost := s.lost + multiset(s.uploaders[a.u].Unsettled()))
    else s
  }

  /** One step of the machine; None when the action is not possible. */
  ghost function Do(cfg: Config, s: System, a: Action): Option<System> {
    if !IsEnabled(cfg, s, a) then None
    else
      match Run(s.db, LedgerOps(cfg, s, a))
      case Some(db) => Some(AfterAction(cfg, s, a, db))
      case None => Some(AfterException(s, a))
  }

  /** The state after a run from the start; None when some action of it was not possible. */
  ghost function After(cfg: Config, uploaders: nat, run: seq<Action>): Option<System> {
    if run == [] then Some(Initial(uploaders))
    else
      match After(cfg, uploaders, run[..|run| - 1])
      case None => None
      case Some(s) => Do(cfg, s, run[|run| - 1])
  }

  ghost predicate IsRun(cfg: Config, uploaders: nat, run: seq<Action>) {
    After(cfg, uploaders, run).Some?
  }

  ghost function StateAfter(cfg: Config, uploaders: nat, run: seq<Action>): System
    requires IsRun(cfg, uploaders, run)
  {
    After(cfg, uploaders, run).value
  }

  /** Every run is a shorter run and one enabled action. */
  lemma RunSplits(cfg: Config, uploaders: nat, run: seq<Action>)
    requires IsRun(cfg, uploaders, run) && run != []
    ensures var before := run[..|run| - 1];
            && IsRun(cfg, uploaders, before)
            && IsEnabled(cfg, StateAfter(cfg, uploaders, before), run[|run| - 1])
            && Do(cfg, StateAfter(cfg, uploaders, before), run[|run| - 1]) == Some(StateAfter(cfg, uploaders, run))
  {
  }

  lemma RunExtends(cfg: Config, uploaders: nat, run: seq<Action>, a: Action)
    requires IsRun(cfg, uploaders, run) && Do(cfg, StateAfter(cfg, uploaders, run), a).Some?
    ensures After(cfg, uploaders, run + [a]) == Do(cfg, StateAfter(cfg, uploaders, run), a)
  {
    assert (run + [a])[..|run|] == run;
  }

  lemma RunReaches(cfg: Config, uploaders: nat, run: seq<Action>, a: Action, s: System, next: System)
    requires After(cfg, uploaders, run) == Some(s) && Do(cfg, s, a) == Some(next)
    ensures After(cfg, uploaders, run + [a]) == Some(next)
  {
    RunExtends(cfg, uploaders, run, a);
  }

  // --- Single steps ---

  lemma RetryOf(cfg: Config, s: System, up: UploaderState)
    requires up.flight.Failed? && up.flight.attempt < cfg.uploader.maxAttempts
    ensures CanUpload(cfg, s, up, Retry)
    ensures UploadOps(cfg, s, up, Retry) == RetryOps(s.db, up.flight.batch, up.flight.why, s.clock)
    ensures NextUploader(cfg, s, up, Retry)
            == up.(flight := Ready(up.flight.batch, up.flight.attempt + 1, up.flight.startedAt))
  {
  }

  lemma SettleOf(cfg: Config, s: System, up: UploaderState)
    requires up.flight.Answered? && |up.flight.rows| == |up.flight.batch|
    ensures CanUpload(cfg, s, up, Settle)
    ensures UploadOps(cfg, s, up, Settle) == ApplyOps(up.flight.batch, up.flight.rows, up.flight.startedAt)
  {
  }

  lemma GiveUpOf(cfg: Config, s: System, up: UploaderState)
    requires up.flight.Failed? || up.flight.Refused?
    ensures CanUpload(cfg, s, up, GiveUp)
    ensures UploadOps(cfg, s, up, GiveUp)
            == if up.flight.Failed?
               then DeadLetterAllOps(s.db, up.flight.batch, Poison, PoisonRequest(up.flight.why, up.flight.attempt),
                                     up.flight.why, up.flight.startedAt)
               else DeadLetterAllOps(s.db, up.flight.batch, Permanent, PermanentRequest(up.flight.why), up.flight.why,
                                     up.flight.startedAt)
  {
  }

  lemma RequestOf(cfg: Config, s: System, up: UploaderState, step: UploadStep)
    requires up.flight.Ready?
    requires step.FailRequest? || step.RefuseRequest? || (step.Deliver? && |step.verdicts| == |up.flight.batch|)
    ensures CanUpload(cfg, s, up, step)
    ensures var flight := up.flight;
            NextUploader(cfg, s, up, step)
            == up.(flight := match step
                             case Deliver(verdicts) =>
                               Answered(flight.batch, flight.attempt, flight.startedAt,
                                        AnswerTo(cfg, flight.batch, verdicts))
                             case FailRequest(why) => Failed(flight.batch, flight.attempt, flight.startedAt, why)
                             case RefuseRequest(why) => Refused(flight.batch, flight.attempt, flight.startedAt, why)
                             case _ => flight)
  {
  }

  /** An uploader's step whose transaction commits. */
  lemma UploadCommits(cfg: Config, s: System, u: nat, step: UploadStep, db: Db)
    requires u < |s.uploaders| && CanUpload(cfg, s, s.uploaders[u], step)
    requires Run(s.db, UploadOps(cfg, s, s.uploaders[u], step)) == Some(db)
    ensures Do(cfg, s, Upload(u, step)) == Some(AfterUpload(cfg, s, u, step, db))
  {
    hide UploadOps, CanUpload, AfterUpload;
  }

  /** An uploader's step whose transaction raises. */
  lemma UploadRaises(cfg: Config, s: System, u: nat, step: UploadStep)
    requires u < |s.uploaders| && CanUpload(cfg, s, s.uploaders[u], step)
    requires Run(s.db, UploadOps(cfg, s, s.uploaders[u], step)) == None
    ensures Do(cfg, s, Upload(u, step)) == Some(AfterException(s, Upload(u, step)))
  {
    hide UploadOps, CanUpload, AfterException;
  }

  /** How a step comes about: its transaction gave `db`, or raised. */
  lemma StepForm(cfg: Config, s: System, a: Action) returns (db: Db, raised: bool)
    requires Do(cfg, s, a).Some?
    ensures a.Upload? ==> a.u < |s.uploaders|
    ensures if raised then Run(s.db, LedgerOps(cfg, s, a)).None? && Do(cfg, s, a).value == AfterException(s, a)
            else Run(s.db, LedgerOps(cfg, s, a)) == Some(db) && Do(cfg, s, a).value == AfterAction(cfg, s, a, db)
  {
    raised := Run(s.db, LedgerOps(cfg, s, a)).None?;
    db := Run(s.db, LedgerOps(cfg, s, a)).GetOr(s.db);
  }

  /** A step leaves the tables alone or runs exactly its own transaction on them. */
  lemma StepRunsLedger(cfg: Config, s: System, a: Action)
    requires Do(cfg, s, a).Some?
    ensures Do(cfg, s, a).value.db == s.db || Run(s.db, LedgerOps(cfg, s, a)) == Some(Do(cfg, s, a).value.db)
  {
  }
}

/** The event lifecycle: states, and the table of moves the ledger permits. */
module Status {

  datatype EventStatus =
    | Received | Validated | Rejected | Queued | Suppressed
    | Processed | Uploading | Uploaded | FailedRetryable | DeadLettered

  datatype Source = Salesforce | HubSpot

  datatype MatchKeyType = ClickId | UserIdentifiers

  /** The permitted targets of each state. Rejected and Uploaded are terminal. */
  function Allowed(from: EventStatus): set<EventStatus> {
    match from
    case Received => {Validated, Rejected}
    case Validated => {Queued}
    case Queued => {Processed, Suppressed, Rejected}
    case Suppressed => {Queued}
    case Processed => {Uploading}
    case Uploading => {Uploaded, FailedRetryable, DeadLettered}
    case FailedRetryable => {Uploading, DeadLettered}
    case DeadLettered => {Queued}
    case Uploaded => {}
    case Rejected => {}
  }

  /** How far along an event is. */
  function Progress(status: EventStatus): nat {
    match status
    case Received => 0
    case Validated => 1
    case Queued => 2
    case Suppressed => 3
    case Processed => 3
    case Uploading => 4
    case FailedRetryable => 5
    case DeadLettered => 6
    case Uploaded => 7
    case Rejected => 7
  }

  /** An event only ever moves on, but for the three ways back: a retry, and the return of a kept event to the queue. */
  lemma MovesOn(from: EventStatus, to: EventStatus)
    requires to in Allowed(from)
    ensures Progress(from) < Progress(to) || (from == FailedRetryable && to == Uploading)
            || (from in {Suppressed, DeadLettered} && to == Queued)
  {
  }

  /** The moves there are: into each state, exactly from these. */
  lemma EntersFrom(from: EventStatus, to: EventStatus)
    ensures to in Allowed(from)
            <==> from in match to
                         case Received => {}
                         case Validated => {Received}
                         case Rejected => {Received, Queued}
                         case Queued => {Validated, Suppressed, DeadLettered}
                         case Suppressed => {Queued}
                         case Processed => {Queued}
                         case Uploading => {Processed, FailedRetryable}
                         case Uploaded => {Uploading}
                         case FailedRetryable => {Uploading}
                         case DeadLettered => {Uploading, FailedRetryable}
    ensures Allowed(from) == {} <==> from in {Rejected, Uploaded}
  {
    assert from !in {Rejected, Uploaded} ==> exists s :: s in Allowed(from) by {
      var s := match from
        case Received => Validated case Validated => Queued case Queued => Processed case Suppressed => Queued
        case Processed => Uploading case Uploading => Uploaded case FailedRetryable => Uploading case _ => Queued;
      assert from !in {Rejected, Uploaded} ==> s in Allowed(from);
    }
  }
}

/** What happens to one queued event: consent first, then normalisation, then the digests are stored. */
module Processor {
  import opened Wrappers
  import opened Status
  import opened Consent
  import opened Normalise
  import opened Identifiers
  import opened Model
  import opened Ledger
  import opened LedgerInvariants

  datatype ProcessOutcome = NowProcessed | NowSuppressed | NowRejected | SkippedNotQueued | SkippedUnknownEvent

  /** The rejections that count: for an event with a click id, "no match key" does not. */
  function Counting(rejections: seq<FieldRejection>, hasClickId: bool): (r: seq<FieldRejection>)
    ensures r == [] <==> forall x :: x in rejections ==> hasClickId && x.reason == NoMatchKey
  {
    if rejections == [] then []
    else
      var rest := Counting(rejections[1..], hasClickId);
      assert rejections[0] in rejections;
      if hasClickId && rejections[0].reason == NoMatchKey then rest else [rejections[0]] + rest
  }

  /** The decision about an event that is QUEUED, given the identifiers its message carries. */
  function Decide(lib: Libraries, e: Event, identifiers: RawIdentifiers): Change {
    match EvaluateConsent(e.facts.consent)
    case Some(blocked) => Suppress(blocked)
    case None =>
      if identifiers == NO_IDENTIFIERS && e.digests.Some? then Process(e.digests.value)
      else
        var result := UserIdentifiersOf(lib, identifiers);
        var rejections := Counting(result.rejections, e.facts.HasClickId());
        if rejections != [] then Reject(rejections) else Process(result.identifiers)
  }

  /** The ledger calls one message leads to. */
  function ProcessOps(lib: Libraries, db: Db, message: Message, now: nat): seq<Op> {
    if db.Has(message.eventId, Queued)
    then [Update(message.eventId, Decide(lib, db.events[message.eventId], message.identifiers), now)]
    else []
  }

  function OutcomeOf(lib: Libraries, db: Db, message: Message): ProcessOutcome {
    if message.eventId !in db.events then SkippedUnknownEvent
    else if db.events[message.eventId].status != Queued then SkippedNotQueued
    else
      match Decide(lib, db.events[message.eventId], message.identifiers)
      case Suppress(_) => NowSuppressed
      case Reject(_) => NowRejected
      case _ => NowProcessed
  }

  /** A queued event always leaves QUEUED, and only for one of three states. */
  lemma ProcessingMoves(lib: Libraries, db: Db, message: Message, now: nat)
    ensures Run(db, ProcessOps(lib, db, message, now)).Some?
    ensures db.Has(message.eventId, Queued) ==>
              var after := Run(db, ProcessOps(lib, db, message, now)).value;
              && message.eventId in after.events
              && after == WithEvent(db, message.eventId, after.events[message.eventId])
              && after.events[message.eventId].status == (match OutcomeOf(lib, db, message)
                                                          case NowSuppressed => Suppressed
                                                          case NowRejected => Rejected
                                                          case _ => Processed)
  {
    var ops := ProcessOps(lib, db, message, now);
    if db.Has(message.eventId, Queued) {
      assert ops[1..] == [];
      assert Run(db, ops) == Step(db, ops[0]);
    }
  }

  /** Whatever the processor stores is backed by both consents and a usable match key. */
  lemma ProcessingIsJustified(lib: Libraries, e: Event, identifiers: RawIdentifiers)
    requires IsFilled(e) && Decide(lib, e, identifiers).Process?
    ensures Justified(e.facts, Decide(lib, e, identifiers).digests)
  {
    if !(identifiers == NO_IDENTIFIERS && e.digests.Some?) {
      var result := UserIdentifiersOf(lib, identifiers);
      if !result.identifiers.HasMatchKey() {
        assert FieldRejection(WholeRecord, NoMatchKey) in result.rejections;
      }
    }
  }

  /** An event that an identifier-free message can still complete. */
  predicate IsRecoverable(e: Event) {
    e.facts.matchKeyType == Some(ClickId) || e.digests.Some?
  }

  /**
   * An identifier-free message is refused by normalisation exactly when consent is given and the event
   * is not recoverable; a recoverable event always ends processed or suppressed.
   */
  lemma EmptyMessageRejectedIff(lib: Libraries, e: Event)
    requires IsComplete(e.facts)
    ensures Decide(lib, e, NO_IDENTIFIERS).Reject? <==> e.facts.consent.BothGranted() && !IsRecoverable(e)
    ensures IsRecoverable(e) ==> Decide(lib, e, NO_IDENTIFIERS).Process? || Decide(lib, e, NO_IDENTIFIERS).Suppress?
  {
    EmptyRecordOnlyLacksKey(lib, e.facts.HasClickId());
  }

  lemma EmptyRecordOnlyLacksKey(lib: Libraries, hasClickId: bool)
    ensures Counting(UserIdentifiersOf(lib, NO_IDENTIFIERS).rejections, hasClickId) == [] <==> hasClickId
  {
    assert forall f :: f in FIELDS ==> !FieldFails(lib, NO_IDENTIFIERS, f);
    var rejections := UserIdentifiersOf(lib, NO_IDENTIFIERS).rejections;
    assert rejections == [FieldRejection(WholeRecord, NoMatchKey)];
    assert rejections[0] in rejections;
  }
}

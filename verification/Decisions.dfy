/** What becomes of a queued event, said of its own columns and of the record its message carries. */
module Decisions {
  import opened Wrappers
  import opened Status
  import opened Consent
  import opened Normalise
  import opened Identifiers
  import opened Fields
  import opened Model
  import opened Ledger
  import opened Processor

  /** Why one signal blocks an upload, and that it does. */
  predicate Blocks(status: Option<ConsentStatus>, why: Blockage) {
    match why
    case BecauseMissing => status == None
    case BecauseDenied => status == Some(Denied)
    case BecauseUnspecified => status == Some(Unspecified)
  }

  /** The first signal that is not granted, user data before personalization, is the one reported. */
  predicate IsBlockedBy(consent: ConsentSignals, blocked: SuppressionReason) {
    match blocked.signal
    case AdUserData => Blocks(consent.adUserData, blocked.blockage)
    case AdPersonalization =>
      consent.adUserData == Some(Granted) && Blocks(consent.adPersonalization, blocked.blockage)
  }

  lemma ConsentIsRead(consent: ConsentSignals, blocked: SuppressionReason)
    ensures EvaluateConsent(consent) == Some(blocked) <==> IsBlockedBy(consent, blocked)
    ensures EvaluateConsent(consent) == None
            <==> consent.adUserData == Some(Granted) && consent.adPersonalization == Some(Granted)
  {
  }

  /** What stops a record: a failing field, or nothing that identifies anybody when there is no click id either. */
  predicate IsObstacle(lib: Libraries, raw: RawIdentifiers, hasClickId: bool, field: Field, why: RejectionReason) {
    Fails(lib, raw, field, why)
    || (field == WholeRecord && why == NoMatchKey && !IdentifiesSomeone(lib, raw) && !hasClickId)
  }

  /** The record can be processed: every field that is there normalises, and there is something to match. */
  ghost predicate IsUsable(lib: Libraries, raw: RawIdentifiers, hasClickId: bool) {
    && (forall f, why :: !Fails(lib, raw, f, why))
    && (IdentifiesSomeone(lib, raw) || hasClickId)
  }

  lemma {:induction false} CountingKeeps(rejections: seq<FieldRejection>, hasClickId: bool)
    requires forall i, j :: 0 <= i < j < |rejections| ==> Place(rejections[i].field) < Place(rejections[j].field)
    ensures var r := Counting(rejections, hasClickId);
            && (forall x :: x in r <==> x in rejections && !(hasClickId && x.reason == NoMatchKey))
            && (forall i, j :: 0 <= i < j < |r| ==> Place(r[i].field) < Place(r[j].field))
  {
    if rejections != [] {
      var tail := rejections[1..];
      assert forall k :: 0 <= k < |tail| ==> tail[k] == rejections[k + 1];
      CountingKeeps(tail, hasClickId);
      var rest := Counting(tail, hasClickId);
      forall i | 0 <= i < |rest| ensures Place(rejections[0].field) < Place(rest[i].field) {
        assert rest[i] in tail;
      }
    }
  }

  lemma CountedFailures(lib: Libraries, raw: RawIdentifiers, hasClickId: bool)
    ensures var counted := Counting(UserIdentifiersOf(lib, raw).rejections, hasClickId);
            && Reports(counted, (f, why) => IsObstacle(lib, raw, hasClickId, f, why))
            && (counted == [] <==> IsUsable(lib, raw, hasClickId))
  {
    hide Fails, IdentifiesSomeone, UserIdentifiersOf, Counting;
    var all := UserIdentifiersOf(lib, raw).rejections;
    var counted := Counting(all, hasClickId);
    ReportedFields(lib, raw);
    CountingKeeps(all, hasClickId);
    forall f, why ensures FieldRejection(f, why) in counted <==> IsObstacle(lib, raw, hasClickId, f, why) {
      NoFieldLacksKey(lib, raw, f);
      assert FieldRejection(f, why) in all <==> IsFailure(lib, raw, f, why);
    }
    if counted != [] {
      assert FieldRejection(counted[0].field, counted[0].reason) in counted;
    } else {
      assert forall f, why :: FieldRejection(f, why) !in counted;
      assert !IsObstacle(lib, raw, hasClickId, WholeRecord, NoMatchKey);
      forall f, why ensures !Fails(lib, raw, f, why) {
        assert !IsObstacle(lib, raw, hasClickId, f, why);
      }
    }
  }

  /** What the decision must be. */
  ghost predicate IsRightDecision(lib: Libraries, e: Event, raw: RawIdentifiers, change: Change) {
    var hasClickId := e.facts.clickId.Some? && e.facts.clickId.value != "";
    var granted := e.facts.consent.adUserData == Some(Granted) && e.facts.consent.adPersonalization == Some(Granted);
    && (change.Suppress? <==> !granted)
    && (change.Suppress? ==> IsBlockedBy(e.facts.consent, change.blocked))
    && (granted && raw == NO_IDENTIFIERS && e.digests.Some? ==> change == Process(e.digests.value))
    && (granted && !(raw == NO_IDENTIFIERS && e.digests.Some?) ==>
          && (change.Process? <==> IsUsable(lib, raw, hasClickId))
          && (change.Process? ==> StoresRecord(lib, raw, change.digests))
          && (!change.Process? ==>
                && change.Reject? && change.rejections != []
                && Reports(change.rejections, (f, why) => IsObstacle(lib, raw, hasClickId, f, why))))
  }

  /**
   * The whole decision, for every event and every record: suppressed exactly without both consents, over
   * the first signal that is missing; processed with the stored digests when an empty record finds some;
   * otherwise processed, with the digests of this very record, exactly when the record is usable, and
   * rejected, with exactly the obstacles in order, when it is not.
   */
  lemma DecisionIsRight(lib: Libraries, e: Event, raw: RawIdentifiers)
    ensures IsRightDecision(lib, e, raw, Decide(lib, e, raw))
  {
    hide IsUsable, StoresRecord, Counting, UserIdentifiersOf, Reports, IsObstacle;
    var blocked := EvaluateConsent(e.facts.consent);
    ConsentIsRead(e.facts.consent, blocked.GetOr(SuppressionReason(AdUserData, BecauseDenied)));
    CountedFailures(lib, raw, e.facts.HasClickId());
    StoredFields(lib, raw, UserIdentifiersOf(lib, raw).identifiers);
  }

  /** The row after a message was processed. */
  ghost predicate IsDecided(lib: Libraries, before: Event, raw: RawIdentifiers, now: nat, after: Event) {
    exists change :: IsRightDecision(lib, before, raw, change) && Shows(before, change, now, after)
  }

  /** Status, reason, digests and log line of a row that was suppressed, rejected or processed; all else stays. */
  predicate Shows(before: Event, change: Change, now: nat, after: Event) {
    match change
    case Suppress(blocked) =>
      after == before.(status := Suppressed, statusReason := Some(ConsentBlocked(blocked)),
                       log := before.log + [LogEntry(Some(Queued), Suppressed, Some(ConsentBlocked(blocked)), now)])
    case Reject(rejections) =>
      after == before.(status := Rejected, statusReason := Some(FieldErrors(rejections)),
                       log := before.log + [LogEntry(Some(Queued), Rejected, Some(FieldErrors(rejections)), now)])
    case Process(digests) =>
      after == before.(status := Processed, statusReason := None, digests := Some(digests),
                       log := before.log + [LogEntry(Some(Queued), Processed, None, now)])
    case _ => false
  }

  /** Handling a message for a queued event carries the right decision out on its row, and touches no other. */
  lemma MessageIsHandled(lib: Libraries, db: Db, message: Message, now: nat)
    requires db.Has(message.eventId, Queued)
    ensures var id, tx := message.eventId, Run(db, ProcessOps(lib, db, message, now));
            && tx.Some? && id in tx.value.events
            && tx.value == Db(db.events[id := tx.value.events[id]], db.dead)
            && IsDecided(lib, db.events[id], message.identifiers, now, tx.value.events[id])
  {
    hide Decide, IsRightDecision;
    var id := message.eventId;
    var e := db.events[id];
    var change := Decide(lib, e, message.identifiers);
    DecisionIsRight(lib, e, message.identifiers);
    DecisionKind(lib, e, message.identifiers);
    var ops := ProcessOps(lib, db, message, now);
    assert ops == [Update(id, change, now)] && ops[1..] == [];
    assert Run(db, ops) == Step(db, ops[0]);
    var after := Changed(e, change, now).value;
    assert Shows(e, change, now, after);
  }

  lemma DecisionKind(lib: Libraries, e: Event, raw: RawIdentifiers)
    ensures var change := Decide(lib, e, raw); change.Suppress? || change.Reject? || change.Process?
  {
  }

  /** A message for an event in any other state, or for none, changes nothing. */
  lemma OtherMessagesChangeNothing(lib: Libraries, db: Db, message: Message, now: nat)
    requires !db.Has(message.eventId, Queued)
    ensures Run(db, ProcessOps(lib, db, message, now)) == Some(db)
    ensures OutcomeOf(lib, db, message)
            == if message.eventId in db.events then SkippedNotQueued else SkippedUnknownEvent
  {
  }
}

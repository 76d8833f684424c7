/**
 * What is sent to the platform about an event, and kept of it when it is given up: the request row of the
 * lead as it came in, every value under its own key.
 */
module RequestRows {
  import opened Wrappers
  import opened Identifiers
  import opened Fields
  import opened Model
  import opened ConversionRows
  import opened Ledger
  import opened LedgerInvariants
  import opened Transactions
  import opened Pipeline
  import opened AuditTrail
  import opened Provenance
  import opened LeaseExclusivity
  import opened AcceptableRows
  import opened Leads

  // --- The digests of one record, on the wire ---

  predicate HasFullAddress(h: HashedIdentifiers) {
    h.givenName.Some? && h.familyName.Some? && h.postalCode.Some? && h.country.Some?
  }

  /** The address block holds every address field that is there, under its own key, and nothing else. */
  predicate CarriesAddress(fields: map<AddressKey, string>, h: HashedIdentifiers) {
    && (if h.givenName.Some? then HashedFirstName in fields && fields[HashedFirstName] == h.givenName.value
        else HashedFirstName !in fields)
    && (if h.familyName.Some? then HashedLastName in fields && fields[HashedLastName] == h.familyName.value
        else HashedLastName !in fields)
    && (if h.streetAddress.Some?
        then HashedStreetAddress in fields && fields[HashedStreetAddress] == h.streetAddress.value
        else HashedStreetAddress !in fields)
    && (if h.city.Some? then AddressCity in fields && fields[AddressCity] == h.city.value
        else AddressCity !in fields)
    && (if h.region.Some? then AddressState in fields && fields[AddressState] == h.region.value
        else AddressState !in fields)
    && (if h.postalCode.Some? then AddressPostalCode in fields && fields[AddressPostalCode] == h.postalCode.value
        else AddressPostalCode !in fields)
    && (if h.country.Some? then AddressCountryCode in fields && fields[AddressCountryCode] == h.country.value
        else AddressCountryCode !in fields)
  }

  /** The e-mail, then the phone, then the address when it is complete; each only if it is there. */
  predicate CarriesDigests(sent: seq<UserIdentifier>, h: HashedIdentifiers) {
    var first := if h.email.Some? then 1 else 0;
    var second := first + if h.phone.Some? then 1 else 0;
    && |sent| == second + (if HasFullAddress(h) then 1 else 0)
    && (h.email.Some? ==> sent[0] == HashedEmail(h.email.value))
    && (h.phone.Some? ==> sent[first] == HashedPhoneNumber(h.phone.value))
    && (HasFullAddress(h) ==> sent[second].AddressInfo? && CarriesAddress(sent[second].fields, h))
  }

  lemma AddressIsCarried(h: HashedIdentifiers)
    requires h.PlainFieldsVisible()
    ensures CarriesAddress(AddressOf(h, ADDRESS_KEYS), h)
    ensures IsCompleteAddress(AddressOf(h, ADDRESS_KEYS)) <==> HasFullAddress(h)
  {
    var address := AddressOf(h, ADDRESS_KEYS);
    forall k: AddressKey ensures k in address <==> IsSent(AddressField(h, k)) {
      KeyIsListed(k);
    }
  }

  lemma KeyIsListed(k: AddressKey)
    ensures k in ADDRESS_KEYS
  {
    var i := match k
      case HashedFirstName => 0 case HashedLastName => 1 case HashedStreetAddress => 2 case AddressCity => 3
      case AddressState => 4 case AddressPostalCode => 5 case AddressCountryCode => 6;
    assert ADDRESS_KEYS[i] == k;
  }

  lemma DigestsAreCarried(h: HashedIdentifiers)
    requires h.PlainFieldsVisible()
    ensures CarriesDigests(SentIdentifiers(h), h)
  {
    hide CarriesAddress, AddressOf;
    AddressIsCarried(h);
  }

  // --- The request row of a lead ---

  /** Under `userIdentifiers`: the digests of the lead's own record or, next to a click id, possibly none. */
  ghost predicate CarriesLead(cfg: Config, sent: seq<UserIdentifier>, lead: LeadEvent) {
    (exists h :: StoresRecord(cfg.lib, lead.identifiers, h) && CarriesDigests(sent, h))
    || (HasClick(lead) && sent == [])
  }

  ghost predicate IsRequestOf(cfg: Config, row: ConversionRow, lead: LeadEvent) {
    && row.conversionAction
       == "customers/" + cfg.uploader.customerId + "/conversionActions/" + lead.conversion.action
    && row.conversionDateTime == lead.conversion.time
    && row.orderId == lead.eventId
    && row.conversionValue == lead.conversion.value
    && row.currencyCode
       == (if lead.conversion.currency.Some? && lead.conversion.currency.value != "" then lead.conversion.currency
           else None)
    && row.gclid == (if HasClick(lead) then lead.clickId else None)
    && CarriesLead(cfg, row.userIdentifiers, lead)
    && row.consent == (if row.userIdentifiers == [] then None else Some(lead.consent))
  }

  /** The row is the request row of the lead with this id. */
  ghost predicate IsOwnRow(cfg: Config, ingested: map<EventId, LeadEvent>, id: EventId, row: ConversionRow) {
    id in ingested && ingested[id].eventId == id && IsRequestOf(cfg, row, ingested[id])
  }

  lemma NoDigestsNothingSent(lib: Libraries)
    ensures SentIdentifiers(CleanIdentifiers(lib, NO_IDENTIFIERS)) == []
  {
    var h := CleanIdentifiers(lib, NO_IDENTIFIERS);
    assert h == HashedIdentifiers(None, None, None, None, None, None, None, None, None);
    assert !IsCompleteAddress(AddressOf(h, ADDRESS_KEYS));
  }

  lemma DigestsCarryLead(cfg: Config, e: Event, lead: LeadEvent)
    requires ShowsLead(e.facts, lead) && e.digests.Some?
    requires ComeFrom(cfg.lib, e.facts, lead.identifiers, e.digests.value)
    ensures CarriesLead(cfg, SentIdentifiers(e.digests.value), lead)
  {
    hide SentIdentifiers, CarriesDigests, StoresRecord, CleanIdentifiers;
    var h := CleanIdentifiers(cfg.lib, lead.identifiers);
    if e.digests.value == h {
      StoredFields(cfg.lib, lead.identifiers, h);
      DigestsAreCarried(h);
      assert StoresRecord(cfg.lib, lead.identifiers, h) && CarriesDigests(SentIdentifiers(h), h);
    } else {
      NoDigestsNothingSent(cfg.lib);
    }
  }

  /** The rows of the ledger that an uploader may handle have their request rows from their own leads. */
  predicate HasSource(cfg: Config, ingested: map<EventId, LeadEvent>, id: EventId, e: Event) {
    && id in ingested && ingested[id].eventId == id && ShowsLead(e.facts, ingested[id])
    && e.digests.Some? && ComeFrom(cfg.lib, e.facts, ingested[id].identifiers, e.digests.value)
  }

  lemma OwnRowOf(cfg: Config, ingested: map<EventId, LeadEvent>, id: EventId, e: Event)
    requires HasSource(cfg, ingested, id, e)
    ensures e.facts.conversion.Some? && IsOwnRow(cfg, ingested, id, ConversionOf(id, e, cfg.uploader.customerId))
  {
    hide SentIdentifiers, CarriesLead, ComeFrom;
    var lead, row := ingested[id], ConversionOf(id, e, cfg.uploader.customerId);
    DigestsCarryLead(cfg, e, lead);
    assert row.conversionAction == ConversionActionResource(cfg.uploader.customerId, lead.conversion.action);
    assert e.facts.consent == lead.consent;
  }

  /** In every run, the ledger's hashed rows have their source. */
  lemma HashedRowsHaveSource(cfg: Config, s: System, id: EventId)
    requires AllSound(s.db.events) && LeadsShown(s) && DigestsKnown(cfg.lib, s.db.events, s.ingested)
    requires id in s.db.events && s.db.events[id].status in HASHED_STATES
    ensures HasSource(cfg, s.ingested, id, s.db.events[id])
  {
    hide IsExplained, ShowsLead, ComeFrom;
    assert IsSound(s.db.events[id]) && IsTraceable(cfg.lib, s.ingested, id, s.db.events[id]);
  }

  // --- What the uploaders hold ---

  ghost predicate AreOwn(cfg: Config, ingested: map<EventId, LeadEvent>, batch: seq<Claimed>) {
    forall i :: 0 <= i < |batch| ==> IsOwnRow(cfg, ingested, batch[i].eventId, batch[i].conversion)
  }

  ghost predicate HoldOwn(cfg: Config, ingested: map<EventId, LeadEvent>, uploaders: seq<UploaderState>) {
    forall u :: 0 <= u < |uploaders| ==> AreOwn(cfg, ingested, uploaders[u].Holding())
  }

  lemma OwnBatch(cfg: Config, ingested: map<EventId, LeadEvent>, up: UploaderState)
    requires AreOwn(cfg, ingested, up.Holding())
    ensures AreOwn(cfg, ingested, up.Batch())
  {
    hide IsOwnRow;
    var batch, held := up.Batch(), up.Holding();
    forall i | 0 <= i < |batch| ensures IsOwnRow(cfg, ingested, batch[i].eventId, batch[i].conversion) {
      assert held[|up.waiting| + i] == batch[i];
    }
  }

  /** A claim leaves the columns and the digests that the request row is made of. */
  lemma ClaimKeepsSource(cfg: Config, ingested: map<EventId, LeadEvent>, id: EventId, e: Event, after: Event, now: nat)
    requires HasSource(cfg, ingested, id, e) && Changed(e, Claim, now) == Some(after)
    ensures HasSource(cfg, ingested, id, after)
  {
    hide ShowsLead, ComeFrom;
  }

  lemma ClaimedAreOwn(cfg: Config, s: System, ids: seq<EventId>, claimed: seq<Claimed>, after: Db)
    requires forall i :: 0 <= i < |ids| ==>
               ids[i] in s.db.events && HasSource(cfg, s.ingested, ids[i], s.db.events[ids[i]])
    requires IsClaimResult(s.db, ids, s.clock, cfg.uploader.maxRowAttempts, cfg.uploader.customerId, claimed, after)
    ensures AreOwn(cfg, s.ingested, claimed)
  {
    hide HasSource, IsOwnRow, Changed;
    var k := cfg.uploader;
    forall i | 0 <= i < |claimed| ensures IsOwnRow(cfg, s.ingested, claimed[i].eventId, claimed[i].conversion) {
      var id := claimed[i].eventId;
      assert IsClaimedNow(s.db, ids, s.clock, k.maxRowAttempts, k.customerId, claimed[i], after);
      ClaimKeepsSource(cfg, s.ingested, id, s.db.events[id], after.events[id], s.clock);
      OwnRowOf(cfg, s.ingested, id, after.events[id]);
    }
  }

  /** Whatever a claim may select has its source. */
  lemma SelectedHaveSource(cfg: Config, s: System, up: UploaderState, ids: seq<EventId>, locked: set<EventId>)
    requires AllSound(s.db.events) && LeadsShown(s) && DigestsKnown(cfg.lib, s.db.events, s.ingested)
    requires CanUpload(cfg, s, up, Cycle(ids, locked))
    ensures forall i :: 0 <= i < |ids| ==>
              ids[i] in s.db.events && HasSource(cfg, s.ingested, ids[i], s.db.events[ids[i]])
  {
    hide HasSource, LeadsShown, DigestsKnown, IsSound;
    forall i | 0 <= i < |ids|
      ensures ids[i] in s.db.events && HasSource(cfg, s.ingested, ids[i], s.db.events[ids[i]])
    {
      assert Claimable(s.db.events, ids[i], s.clock, cfg.uploader.retryAfter, cfg.uploader.staleAfter, locked);
      HashedRowsHaveSource(cfg, s, ids[i]);
    }
  }

  lemma ClaimHoldsOwn(cfg: Config, s: System, up: UploaderState, ids: seq<EventId>, locked: set<EventId>)
    requires AllSound(s.db.events) && LeadsShown(s) && DigestsKnown(cfg.lib, s.db.events, s.ingested)
    requires AreOwn(cfg, s.ingested, up.Holding()) && CanUpload(cfg, s, up, Cycle(ids, locked))
    ensures AreOwn(cfg, s.ingested, NextUploader(cfg, s, up, Cycle(ids, locked)).Holding())
  {
    hide CanUpload, IsClaimResult, UploadOps, HasSource, IsOwnRow;
    var claimed, after := ClaimRuns(cfg, s, up, ids, locked);
    SelectedHaveSource(cfg, s, up, ids, locked);
    ClaimedAreOwn(cfg, s, ids, claimed, after);
    CycleIsIdle(cfg, s, up, ids, locked);
    ClaimedAreAdded(cfg, s.clock, up, claimed);
  }

  lemma LettingGoKeepsOwn(cfg: Config, ingested: map<EventId, LeadEvent>, before: UploaderState, after: UploaderState)
    requires AreOwn(cfg, ingested, before.Holding()) && HoldsNoMore(before, after)
    ensures AreOwn(cfg, ingested, after.Holding())
  {
    hide IsOwnRow;
  }

  lemma UploadHoldsOwn(cfg: Config, s: System, up: UploaderState, step: UploadStep)
    requires AllSound(s.db.events) && LeadsShown(s) && DigestsKnown(cfg.lib, s.db.events, s.ingested)
    requires AreOwn(cfg, s.ingested, up.Holding()) && CanUpload(cfg, s, up, step)
    ensures AreOwn(cfg, s.ingested, NextUploader(cfg, s, up, step).Holding())
  {
    hide CanUpload, NextUploader, AreOwn;
    if step.Cycle? {
      ClaimHoldsOwn(cfg, s, up, step.ids, step.locked);
    } else {
      StepHoldsNoMore(cfg, s, up, step);
      LettingGoKeepsOwn(cfg, s.ingested, up, NextUploader(cfg, s, up, step));
    }
  }

  lemma NothingIsOwn(cfg: Config, ingested: map<EventId, LeadEvent>)
    ensures AreOwn(cfg, ingested, FRESH_UPLOADER.Holding())
  {
  }

  /** A lead that was ingested stays as it was, so rows stay its own. */
  lemma OwnStays(cfg: Config, before: map<EventId, LeadEvent>, after: map<EventId, LeadEvent>, batch: seq<Claimed>)
    requires AreOwn(cfg, before, batch) && IngestedGrows(before, after)
    ensures AreOwn(cfg, after, batch)
  {
    hide IsRequestOf;
  }

  lemma StepHoldsOwn(cfg: Config, s: System, a: Action)
    requires AllSound(s.db.events) && LeadsShown(s) && DigestsKnown(cfg.lib, s.db.events, s.ingested)
    requires HoldOwn(cfg, s.ingested, s.uploaders) && Do(cfg, s, a).Some?
    requires IngestedGrows(s.ingested, Do(cfg, s, a).value.ingested)
    ensures HoldOwn(cfg, Do(cfg, s, a).value.ingested, Do(cfg, s, a).value.uploaders)
  {
    hide NextUploader, UploadOps, CanUpload, AreOwn, LeadsShown, DigestsKnown, AllSound, IngestedGrows;
    var next := Do(cfg, s, a).value;
    NothingIsOwn(cfg, next.ingested);
    var db, raised := StepForm(cfg, s, a);
    if a.Upload? && !raised {
      UploadHoldsOwn(cfg, s, s.uploaders[a.u], a.step);
      OwnStays(cfg, s.ingested, next.ingested, NextUploader(cfg, s, s.uploaders[a.u], a.step).Holding());
    }
    forall u | 0 <= u < |s.uploaders| ensures AreOwn(cfg, next.ingested, s.uploaders[u].Holding()) {
      OwnStays(cfg, s.ingested, next.ingested, s.uploaders[u].Holding());
    }
  }

  // --- What the dead-letter records keep ---

  /** Class and code of a record agree with its reason, and the reason is one of the four there are. */
  predicate SaysWhy(failureClass: FailureClass, reason: Reason, errorCode: Option<string>) {
    match reason
    case PermanentRow(code) => failureClass == Partial && errorCode == Some(code)
    case PermanentRequest(why) => failureClass == Permanent && errorCode == Some(why)
    case PoisonRequest(why, _) => failureClass == Poison && errorCode == Some(why)
    case AttemptCeiling(_) => failureClass == Poison && errorCode == Some("row_attempt_ceiling")
    case _ => false
  }

  /** The record is about its own lead: its source, its conversion action, its request row; and it says why. */
  ghost predicate IsOwnRecord(cfg: Config, ingested: map<EventId, LeadEvent>, d: DeadLetter) {
    && IsOwnRow(cfg, ingested, d.eventId, d.payload)
    && d.source == ingested[d.eventId].source
    && d.conversionAction == Some(ingested[d.eventId].conversion.action)
    && SaysWhy(d.failureClass, d.reason, d.errorCode)
  }

  ghost predicate RecordsAreOwn(cfg: Config, ingested: map<EventId, LeadEvent>, dead: seq<DeadLetter>) {
    forall i :: 0 <= i < |dead| ==> IsOwnRecord(cfg, ingested, dead[i])
  }

  /** A dead-lettering that keeps the event's own row and says why. */
  ghost predicate KeepsOwn(cfg: Config, ingested: map<EventId, LeadEvent>, op: Op) {
    op.Update? && op.change.DeadLetterRow? ==>
      && IsOwnRow(cfg, ingested, op.id, op.change.payload)
      && SaysWhy(op.change.failureClass, op.change.reason, op.change.errorCode)
  }

  ghost predicate AllKeepOwn(cfg: Config, ingested: map<EventId, LeadEvent>, ops: seq<Op>) {
    forall i :: 0 <= i < |ops| ==> KeepsOwn(cfg, ingested, ops[i])
  }

  /** Every ingested lead has its row, showing it. */
  predicate AllShown(ingested: map<EventId, LeadEvent>, events: map<EventId, Event>) {
    forall id :: id in ingested ==> id in events && ShowsLead(events[id].facts, ingested[id])
  }

  lemma NewRecordIsOwn(cfg: Config, ingested: map<EventId, LeadEvent>, id: EventId, e: Event, change: Change, at: nat)
    requires change.DeadLetterRow? && IsOwnRow(cfg, ingested, id, change.payload)
    requires SaysWhy(change.failureClass, change.reason, change.errorCode) && ShowsLead(e.facts, ingested[id])
    ensures IsOwnRecord(cfg, ingested, RecordOf(id, e, change, at))
  {
    hide IsRequestOf, SaysWhy;
  }

  lemma ChangeKeepsFacts(e: Event, change: Change, now: nat)
    requires Changed(e, change, now).Some?
    ensures Changed(e, change, now).value.facts == e.facts
  {
  }

  lemma StepKeepsRecords(cfg: Config, ingested: map<EventId, LeadEvent>, db: Db, op: Op)
    requires RecordsAreOwn(cfg, ingested, db.dead) && KeepsOwn(cfg, ingested, op) && Step(db, op).Some?
    requires AllShown(ingested, db.events)
    ensures RecordsAreOwn(cfg, ingested, Step(db, op).value.dead) && AllShown(ingested, Step(db, op).value.events)
  {
    hide IsRequestOf, SaysWhy, ShowsLead;
    if op.Update? {
      hide Changed, RecordOf, IsOwnRecord;
      ChangeKeepsFacts(db.events[op.id], op.change, op.at);
      if op.change.DeadLetterRow? {
        NewRecordIsOwn(cfg, ingested, op.id, Changed(db.events[op.id], op.change, op.at).value, op.change, op.at);
      }
    }
  }

  lemma {:induction false} RunKeepsRecords(cfg: Config, ingested: map<EventId, LeadEvent>, db: Db, ops: seq<Op>)
    requires RecordsAreOwn(cfg, ingested, db.dead) && AllKeepOwn(cfg, ingested, ops) && Run(db, ops).Some?
    requires AllShown(ingested, db.events)
    ensures RecordsAreOwn(cfg, ingested, Run(db, ops).value.dead)
    decreases |ops|
  {
    hide RecordsAreOwn, KeepsOwn, AllShown;
    if ops != [] {
      assert KeepsOwn(cfg, ingested, ops[0]);
      StepKeepsRecords(cfg, ingested, db, ops[0]);
      RunKeepsRecords(cfg, ingested, Step(db, ops[0]).value, ops[1..]);
    }
  }

  lemma {:induction false} CeilingKeepsOwn(cfg: Config, ingested: map<EventId, LeadEvent>, db: Db, ids: seq<EventId>,
                                           now: nat)
    requires HaveConversions(db, ids)
    requires forall i :: 0 <= i < |ids| ==> HasSource(cfg, ingested, ids[i], db.events[ids[i]])
    ensures AllKeepOwn(cfg, ingested, CeilingOps(db, ids, now, cfg.uploader.maxRowAttempts, cfg.uploader.customerId))
    decreases |ids|
  {
    hide HasSource, IsOwnRow, ConversionOf;
    if ids != [] {
      CeilingKeepsOwn(cfg, ingested, db, ids[..|ids| - 1], now);
      OwnRowOf(cfg, ingested, ids[|ids| - 1], db.events[ids[|ids| - 1]]);
    }
  }

  lemma GivingUpKeepsOwn(cfg: Config, ingested: map<EventId, LeadEvent>, db: Db, batch: seq<Claimed>,
                         failureClass: FailureClass, reason: Reason, code: string, now: nat)
    requires AreOwn(cfg, ingested, batch) && SaysWhy(failureClass, reason, Some(code))
    ensures AllKeepOwn(cfg, ingested, DeadLetterAllOps(db, batch, failureClass, reason, code, now))
  {
    hide IsOwnRow, SaysWhy;
    LoadedAreListed(db, FirstOccurrences(Ids(batch)));
  }

  lemma SettlingKeepsOwn(cfg: Config, ingested: map<EventId, LeadEvent>, batch: seq<Claimed>, rows: seq<RowResult>,
                         now: nat)
    requires AreOwn(cfg, ingested, batch) && |rows| == |batch|
    ensures AllKeepOwn(cfg, ingested, ApplyOps(batch, rows, now))
  {
    hide IsOwnRow;
  }

  lemma CycleKeepsOwn(cfg: Config, s: System, up: UploaderState, ids: seq<EventId>, locked: set<EventId>)
    requires AllSound(s.db.events) && LeadsShown(s) && DigestsKnown(cfg.lib, s.db.events, s.ingested)
    requires CanUpload(cfg, s, up, Cycle(ids, locked))
    ensures AllKeepOwn(cfg, s.ingested, UploadOps(cfg, s, up, Cycle(ids, locked)))
  {
    hide HasSource, IsOwnRow, LeadsShown, DigestsKnown, AllSound, CanUpload, Changed;
    SelectedHaveSource(cfg, s, up, ids, locked);
    var mid, ceiling := ClaimParts(cfg, s, up, ids, locked);
    forall i | 0 <= i < |ids| ensures HasSource(cfg, s.ingested, ids[i], mid.events[ids[i]]) {
      ClaimKeepsSource(cfg, s.ingested, ids[i], s.db.events[ids[i]], mid.events[ids[i]], s.clock);
    }
    CeilingKeepsOwn(cfg, s.ingested, mid, ids, s.clock);
  }

  lemma UploadKeepsOwn(cfg: Config, s: System, up: UploaderState, step: UploadStep)
    requires AllSound(s.db.events) && LeadsShown(s) && DigestsKnown(cfg.lib, s.db.events, s.ingested)
    requires AreOwn(cfg, s.ingested, up.Holding()) && CanUpload(cfg, s, up, step)
    ensures AllKeepOwn(cfg, s.ingested, UploadOps(cfg, s, up, step))
  {
    hide LeadsShown, DigestsKnown, AllSound, AreOwn, IsOwnRow;
    OwnBatch(cfg, s.ingested, up);
    var f := up.flight;
    match step {
      case Cycle(ids, locked) => CycleKeepsOwn(cfg, s, up, ids, locked);
      case GiveUp =>
        if f.Failed? {
          GivingUpKeepsOwn(cfg, s.ingested, s.db, f.batch, Poison, PoisonRequest(f.why, f.attempt), f.why, f.startedAt);
        } else {
          GivingUpKeepsOwn(cfg, s.ingested, s.db, f.batch, Permanent, PermanentRequest(f.why), f.why, f.startedAt);
        }
      case Settle => SettlingKeepsOwn(cfg, s.ingested, f.batch, f.rows, f.startedAt);
      case _ =>
    }
  }

  lemma OthersKeepOwn(cfg: Config, s: System, a: Action)
    requires !a.Upload?
    ensures AllKeepOwn(cfg, s.ingested, LedgerOps(cfg, s, a))
  {
    hide IsOwnRow;
  }

  lemma RecordsStayOwn(cfg: Config, before: map<EventId, LeadEvent>, after: map<EventId, LeadEvent>,
                       dead: seq<DeadLetter>)
    requires RecordsAreOwn(cfg, before, dead) && IngestedGrows(before, after)
    ensures RecordsAreOwn(cfg, after, dead)
  {
    hide IsRequestOf, SaysWhy;
  }

  lemma StepKeepsOwnRecords(cfg: Config, s: System, a: Action)
    requires AllSound(s.db.events) && LeadsShown(s) && DigestsKnown(cfg.lib, s.db.events, s.ingested)
    requires HoldOwn(cfg, s.ingested, s.uploaders) && RecordsAreOwn(cfg, s.ingested, s.db.dead)
    requires Do(cfg, s, a).Some? && IngestedGrows(s.ingested, Do(cfg, s, a).value.ingested)
    ensures RecordsAreOwn(cfg, Do(cfg, s, a).value.ingested, Do(cfg, s, a).value.db.dead)
  {
    hide DigestsKnown, AllSound, RecordsAreOwn, AreOwn, AllKeepOwn, ShowsLead, IngestedGrows, CanUpload, UploadOps,
         NextUploader;
    StepRunsLedger(cfg, s, a);
    if Run(s.db, LedgerOps(cfg, s, a)).Some? {
      if a.Upload? {
        UploadKeepsOwn(cfg, s, s.uploaders[a.u], a.step);
      } else {
        OthersKeepOwn(cfg, s, a);
      }
      RunKeepsRecords(cfg, s.ingested, s.db, LedgerOps(cfg, s, a));
      RecordsStayOwn(cfg, s.ingested, Do(cfg, s, a).value.ingested, Run(s.db, LedgerOps(cfg, s, a)).value.dead);
    }
    RecordsStayOwn(cfg, s.ingested, Do(cfg, s, a).value.ingested, s.db.dead);
  }

  // --- In every run ---

  lemma StepGrowsIngested(cfg: Config, s: System, a: Action)
    requires IsSoundDb(s.db) && IsProvenanced(cfg, s) && Do(cfg, s, a).Some?
    ensures IngestedGrows(s.ingested, Do(cfg, s, a).value.ingested)
  {
    hide IsSoundDb, MessagesKnown, DigestsKnown, LedgerOps, AfterAction, IsEnabled;
    var db, raised := StepForm(cfg, s, a);
    if raised {
      assert Do(cfg, s, a).value.ingested == s.ingested;
    } else {
      IngestedAfterStep(cfg, s, a, db);
    }
  }

  lemma IngestedAfterStep(cfg: Config, s: System, a: Action, db: Db)
    requires forall id :: id in s.ingested ==> id in s.db.events
    requires a.Upload? ==> a.u < |s.uploaders|
    ensures IngestedGrows(s.ingested, AfterAction(cfg, s, a, db).ingested)
  {
    hide NextUploader;
  }

  /**
   * In every run, every row an uploader holds and every payload of a dead-letter record is the request row of
   * its own lead; and every record has that lead's source and action, and the class and code of its reason.
   */
  lemma {:induction false} RequestRowsInEveryRun(cfg: Config, uploaders: nat, run: seq<Action>)
    requires IsRun(cfg, uploaders, run)
    ensures var s := StateAfter(cfg, uploaders, run);
            HoldOwn(cfg, s.ingested, s.uploaders) && RecordsAreOwn(cfg, s.ingested, s.db.dead)
    decreases |run|
  {
    hide Do, AreOwn, RecordsAreOwn, LeadsShown, DigestsKnown, MessagesKnown;
    if run == [] {
      AtStart(cfg, uploaders);
    } else {
      RunSplits(cfg, uploaders, run);
      var before := run[..|run| - 1];
      var s := StateAfter(cfg, uploaders, before);
      RequestRowsInEveryRun(cfg, uploaders, before);
      TablesSoundInEveryRun(cfg, uploaders, before);
      ProvenanceInEveryRun(cfg, uploaders, before);
      LeadsShownInEveryRun(cfg, uploaders, before);
      StepGrowsIngested(cfg, s, run[|run| - 1]);
      StepHoldsOwn(cfg, s, run[|run| - 1]);
      StepKeepsOwnRecords(cfg, s, run[|run| - 1]);
    }
  }

  lemma AtStart(cfg: Config, uploaders: nat)
    ensures var s := Initial(uploaders);
            HoldOwn(cfg, s.ingested, s.uploaders) && RecordsAreOwn(cfg, s.ingested, s.db.dead)
  {
    NothingIsOwn(cfg, map[]);
  }
}

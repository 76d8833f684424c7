/** What is stored, sent and reported for each field of one record, said of the record itself. */
module Fields {
  import opened Wrappers
  import opened Text
  import opened Normalise
  import opened Identifiers

  /** The phone as the library reads it, under the record's own country when that one is usable. */
  function PhoneForm(lib: Libraries, raw: RawIdentifiers): Normalised {
    NormalisePhone(lib, raw.phone, match NormaliseCountry(raw.country) case Ok(c) => Some(c) case Err(_) => None)
  }

  /** Each digest is that of its own field's normal form, each plain field is its own normal form. */
  predicate StoresRecord(lib: Libraries, raw: RawIdentifiers, h: HashedIdentifiers) {
    && h.email == (match NormaliseEmail(raw.email) case Ok(v) => Some(lib.sha256(v)) case Err(_) => None)
    && h.phone == (match PhoneForm(lib, raw) case Ok(v) => Some(lib.sha256(v)) case Err(_) => None)
    && h.givenName == (match NormaliseName(raw.givenName) case Ok(v) => Some(lib.sha256(v)) case Err(_) => None)
    && h.familyName == (match NormaliseName(raw.familyName) case Ok(v) => Some(lib.sha256(v)) case Err(_) => None)
    && h.streetAddress == (match NormaliseStreet(raw.streetAddress)
                           case Ok(v) => Some(lib.sha256(v)) case Err(_) => None)
    && h.city == (match LowercaseCollapsed(raw.city) case Ok(v) => Some(v) case Err(_) => None)
    && h.region == (match LowercaseCollapsed(raw.region) case Ok(v) => Some(v) case Err(_) => None)
    && h.postalCode == (match NormalisePostalCode(raw.postalCode) case Ok(v) => Some(v) case Err(_) => None)
    && h.country == (match NormaliseCountry(raw.country) case Ok(v) => Some(v) case Err(_) => None)
  }

  /** The builder's identifiers, field by field; no other set of digests fits the record. */
  lemma StoredFields(lib: Libraries, raw: RawIdentifiers, h: HashedIdentifiers)
    ensures StoresRecord(lib, raw, h) <==> h == UserIdentifiersOf(lib, raw).identifiers
  {
    hide NormaliseEmail, NormaliseName, NormaliseStreet, NormaliseCountry, NormalisePhone, NormalisePostalCode,
         LowercaseCollapsed;
  }

  /** The field is there and its normaliser refuses it for this reason. */
  predicate Fails(lib: Libraries, raw: RawIdentifiers, field: Field, why: RejectionReason) {
    match field
    case Country => raw.country.Some? && NormaliseCountry(raw.country) == Err(why)
    case Email => raw.email.Some? && NormaliseEmail(raw.email) == Err(why)
    case Phone => raw.phone.Some? && PhoneForm(lib, raw) == Err(why)
    case GivenName => raw.givenName.Some? && NormaliseName(raw.givenName) == Err(why)
    case FamilyName => raw.familyName.Some? && NormaliseName(raw.familyName) == Err(why)
    case StreetAddress => raw.streetAddress.Some? && NormaliseStreet(raw.streetAddress) == Err(why)
    case City => raw.city.Some? && LowercaseCollapsed(raw.city) == Err(why)
    case Region => raw.region.Some? && LowercaseCollapsed(raw.region) == Err(why)
    case PostalCode => raw.postalCode.Some? && NormalisePostalCode(raw.postalCode) == Err(why)
    case WholeRecord => false
  }

  /** An e-mail or a phone, or both names with postal code and country, and all of it usable. */
  predicate IdentifiesSomeone(lib: Libraries, raw: RawIdentifiers) {
    NormaliseEmail(raw.email).Ok? || PhoneForm(lib, raw).Ok?
    || (NormaliseName(raw.givenName).Ok? && NormaliseName(raw.familyName).Ok?
        && NormalisePostalCode(raw.postalCode).Ok? && NormaliseCountry(raw.country).Ok?)
  }

  /** The place of each field in the report. */
  function Place(field: Field): nat {
    match field
    case Country => 0
    case Email => 1
    case Phone => 2
    case GivenName => 3
    case FamilyName => 4
    case StreetAddress => 5
    case City => 6
    case Region => 7
    case PostalCode => 8
    case WholeRecord => 9
  }

  /** Exactly the listed failures, in report order, each once. */
  ghost predicate Reports(rejections: seq<FieldRejection>, fails: (Field, RejectionReason) -> bool) {
    && (forall f, why :: FieldRejection(f, why) in rejections <==> fails(f, why))
    && (forall i, j :: 0 <= i < j < |rejections| ==> Place(rejections[i].field) < Place(rejections[j].field))
  }

  predicate InOrder(fields: seq<Field>) {
    forall i, j :: 0 <= i < j < |fields| ==> Place(fields[i]) < Place(fields[j])
  }

  lemma {:induction false} ListedRejections(lib: Libraries, raw: RawIdentifiers, fields: seq<Field>)
    requires InOrder(fields)
    ensures var r := FieldRejections(lib, raw, fields);
            && (forall x :: x in r <==> x.field in fields && Fails(lib, raw, x.field, x.reason))
            && (forall i, j :: 0 <= i < j < |r| ==> Place(r[i].field) < Place(r[j].field))
  {
    if fields != [] {
      assert forall k :: 0 <= k < |fields[1..]| ==> fields[1..][k] == fields[k + 1];
      assert InOrder(fields[1..]);
      ListedRejections(lib, raw, fields[1..]);
      var rest := FieldRejections(lib, raw, fields[1..]);
      FieldFailsIff(lib, raw, fields[0]);
      forall i | 0 <= i < |rest| ensures Place(fields[0]) < Place(rest[i].field) {
        assert rest[i] in rest;
        var k :| 0 <= k < |fields[1..]| && fields[1..][k] == rest[i].field;
        assert fields[k + 1] == rest[i].field;
      }
    }
  }

  lemma FieldFailsIff(lib: Libraries, raw: RawIdentifiers, field: Field)
    ensures FieldFails(lib, raw, field) ==> Fails(lib, raw, field, FieldOutcome(lib, raw, field).error)
    ensures forall why :: Fails(lib, raw, field, why)
                          ==> FieldFails(lib, raw, field) && FieldOutcome(lib, raw, field) == Err(why)
  {
    hide NormaliseEmail, NormaliseName, NormaliseStreet, NormaliseCountry, NormalisePhone, NormalisePostalCode,
         LowercaseCollapsed;
  }

  lemma FieldsInOrder()
    ensures InOrder(FIELDS) && WholeRecord !in FIELDS
    ensures forall f: Field :: f != WholeRecord ==> f in FIELDS
  {
    forall f: Field | f != WholeRecord ensures f in FIELDS {
      FieldIsListed(f);
    }
  }

  lemma KeyIffIdentifies(lib: Libraries, raw: RawIdentifiers)
    ensures UserIdentifiersOf(lib, raw).identifiers.HasMatchKey() <==> IdentifiesSomeone(lib, raw)
  {
    hide NormaliseEmail, NormaliseName, NormaliseStreet, NormaliseCountry, NormalisePhone, NormalisePostalCode,
         LowercaseCollapsed;
    StoredFields(lib, raw, UserIdentifiersOf(lib, raw).identifiers);
  }

  /** What fails about a record, field by field and as a whole. */
  predicate IsFailure(lib: Libraries, raw: RawIdentifiers, field: Field, why: RejectionReason) {
    Fails(lib, raw, field, why) || (field == WholeRecord && why == NoMatchKey && !IdentifiesSomeone(lib, raw))
  }

  /** A list of the failing fields, with the whole record added behind them when it identifies nobody. */
  lemma WholeRecordLast(lib: Libraries, raw: RawIdentifiers, fields: seq<FieldRejection>, all: seq<FieldRejection>)
    requires forall x :: x in fields <==> x.field != WholeRecord && Fails(lib, raw, x.field, x.reason)
    requires forall i, j :: 0 <= i < j < |fields| ==> Place(fields[i].field) < Place(fields[j].field)
    requires all == if IdentifiesSomeone(lib, raw) then fields else fields + [FieldRejection(WholeRecord, NoMatchKey)]
    ensures Reports(all, (f, why) => IsFailure(lib, raw, f, why))
  {
    assert forall why :: !Fails(lib, raw, WholeRecord, why);
    hide Fails, IdentifiesSomeone;
    var whole := FieldRejection(WholeRecord, NoMatchKey);
    assert forall x :: x in all <==> x in fields || (x == whole && !IdentifiesSomeone(lib, raw));
    forall f, why ensures FieldRejection(f, why) in all <==> IsFailure(lib, raw, f, why) {
      var x := FieldRejection(f, why);
      assert x in fields <==> x.field != WholeRecord && Fails(lib, raw, x.field, x.reason);
    }
    forall i, j | 0 <= i < j < |all| ensures Place(all[i].field) < Place(all[j].field) {
      assert all[i] == fields[i] && all[i] in fields;
      if j == |fields| {
        assert all[j] == whole;
        BeforeWholeRecord(all[i].field);
      }
    }
  }

  lemma BeforeWholeRecord(f: Field)
    requires f != WholeRecord
    ensures Place(f) < Place(WholeRecord)
  {
  }

  /** The builder reports every failing field with its reason, in order, and last a record that identifies nobody. */
  lemma ReportedFields(lib: Libraries, raw: RawIdentifiers)
    ensures Reports(UserIdentifiersOf(lib, raw).rejections, (f, why) => IsFailure(lib, raw, f, why))
  {
    hide FieldRejections, IdentifiesSomeone, CleanIdentifiers, Fails, Reports, Place, HashedIdentifiers.HasMatchKey;
    FieldsInOrder();
    ListedRejections(lib, raw, FIELDS);
    KeyIffIdentifies(lib, raw);
    WholeRecordLast(lib, raw, FieldRejections(lib, raw, FIELDS), UserIdentifiersOf(lib, raw).rejections);
  }

  /** No field's own normaliser ever gives the reason kept for the record as a whole. */
  lemma NoFieldLacksKey(lib: Libraries, raw: RawIdentifiers, field: Field)
    ensures !Fails(lib, raw, field, NoMatchKey)
  {
    hide Strip, Lower, Upper, SplitAddress, Words, Bare, NameTokens, Glue, Join, CutAtPlus, DropDots;
  }

  // --- What a phone is parsed as ---

  /** The stripped number goes to the library with the upper-cased region, unless it cannot be read without one. */
  lemma PhoneIsParsed(lib: Libraries, raw: string, region: Option<string>)
    ensures var form := NormalisePhone(lib, Some(raw), region);
            && (Strip(raw) == "" ==> form == Err(Empty))
            && (Strip(raw) != "" && region.None? && Strip(raw)[0] != '+' ==> form == Err(NoDefaultRegion))
            && (Strip(raw) != "" && region.None? && Strip(raw)[0] == '+' ==> form == lib.parsePhone(Strip(raw), None))
            && (Strip(raw) != "" && region.Some? ==>
                  form == lib.parsePhone(Strip(raw), Some(Upper(region.value))))
    ensures NormalisePhone(lib, None, region) == Err(Missing)
  {
  }

  // --- What equal digests mean ---

  lemma PresentEmail(raw: Option<string>)
    requires NormaliseEmail(raw).Ok?
    ensures raw.Some?
  {
  }

  /** With a hash that tells texts apart, two e-mail digests agree exactly when both reach the same inbox. */
  lemma SameDigestIffSameInbox(lib: Libraries, a: RawIdentifiers, b: RawIdentifiers)
    requires forall x, y :: lib.sha256(x) == lib.sha256(y) ==> x == y
    requires NormaliseEmail(a.email).Ok? && NormaliseEmail(b.email).Ok?
    ensures UserIdentifiersOf(lib, a).identifiers.email == UserIdentifiersOf(lib, b).identifiers.email
            <==> DomainPart(a.email.value) == DomainPart(b.email.value)
                 && Mailbox(LocalPart(a.email.value), DomainPart(a.email.value))
                    == Mailbox(LocalPart(b.email.value), DomainPart(b.email.value))
  {
    hide NormaliseEmail, LocalPart, DomainPart, Mailbox, Identifiers.CleanIdentifiers;
    PresentEmail(a.email);
    PresentEmail(b.email);
    StoredFields(lib, a, UserIdentifiersOf(lib, a).identifiers);
    StoredFields(lib, b, UserIdentifiersOf(lib, b).identifiers);
    SameEmailIffSameInbox(a.email.value, b.email.value);
    var x, y := NormaliseEmail(a.email).value, NormaliseEmail(b.email).value;
    assert lib.sha256(x) == lib.sha256(y) <==> x == y;
  }
}

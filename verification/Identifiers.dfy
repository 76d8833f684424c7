/** From the identifier fields of one CRM record to the digests that are stored and sent. */
module Identifiers {
  import opened Wrappers
  import opened Text
  import opened Normalise

  predicate IsHexDigit(c: char) {
    '0' <= c <= '9' || 'a' <= c <= 'f'
  }

  /** What SHA-256 yields (section 6.2 of FIPS 180-4), written as 64 lowercase hex characters. */
  type Digest = s: string | |s| == 64 && forall i :: 0 <= i < |s| ==> IsHexDigit(s[i])
    witness seq(64, _ => '0')

  /** The outcome of parsing a phone number: a number that is not empty, or one of two refusals. */
  type PhoneNumber = n: Normalised | (n.Ok? && n.value != "") || n in {Err(Unparseable), Err(Invalid)}
    witness Err(Unparseable)

  /** The two library functions whose inside is not modelled. */
  datatype Libraries = Libraries(
    sha256: string -> Digest,
    parsePhone: (string, Option<string>) -> PhoneNumber)

  datatype RawIdentifiers = RawIdentifiers(
    email: Option<string>, phone: Option<string>, givenName: Option<string>, familyName: Option<string>,
    streetAddress: Option<string>, city: Option<string>, region: Option<string>, postalCode: Option<string>,
    country: Option<string>)

  const NO_IDENTIFIERS: RawIdentifiers :=
    RawIdentifiers(None, None, None, None, None, None, None, None, None)

  datatype HashedIdentifiers = HashedIdentifiers(
    email: Option<Digest>, phone: Option<Digest>, givenName: Option<Digest>, familyName: Option<Digest>,
    streetAddress: Option<Digest>, city: Option<string>, region: Option<string>, postalCode: Option<string>,
    country: Option<string>)
  {
    /** An e-mail, a phone, or both names with postal code and country. */
    predicate HasMatchKey() {
      email.Some? || phone.Some?
      || (givenName.Some? && familyName.Some? && postalCode.Some? && country.Some?)
    }

    /** The fields sent in the clear are never the empty text. */
    predicate PlainFieldsVisible() {
      city != Some("") && region != Some("") && postalCode != Some("") && country != Some("")
    }
  }

  datatype Field =
    | Country | Email | Phone | GivenName | FamilyName | StreetAddress | City | Region | PostalCode
    | WholeRecord

  datatype FieldRejection = FieldRejection(field: Field, reason: RejectionReason)

  datatype BuildResult = BuildResult(identifiers: HashedIdentifiers, rejections: seq<FieldRejection>)

  function NormalisePhone(lib: Libraries, raw: Option<string>, defaultRegion: Option<string>): (r: Normalised)
    ensures r.Ok? ==> r.value != ""
  {
    if raw.None? then Err(Missing) else
    var value := Strip(raw.value);
    if value == "" then Err(Empty) else
    var region := match defaultRegion case Some(x) => Some(Upper(x)) case None => None;
    if region.None? && value[0] != '+' then Err(NoDefaultRegion)
    else lib.parsePhone(value, region)
  }

  /** The order in which the fields are attempted; country first because phone parsing uses it. */
  const FIELDS: seq<Field> :=
    [Country, Email, Phone, GivenName, FamilyName, StreetAddress, City, Region, PostalCode]

  function RawField(raw: RawIdentifiers, field: Field): Option<string> {
    match field
    case Country => raw.country
    case Email => raw.email
    case Phone => raw.phone
    case GivenName => raw.givenName
    case FamilyName => raw.familyName
    case StreetAddress => raw.streetAddress
    case City => raw.city
    case Region => raw.region
    case PostalCode => raw.postalCode
    case WholeRecord => None
  }

  /** What normalising one field of the record gives; an absent field gives Missing. */
  function FieldOutcome(lib: Libraries, raw: RawIdentifiers, field: Field): Normalised {
    match field
    case Country => NormaliseCountry(raw.country)
    case Email => NormaliseEmail(raw.email)
    case Phone =>
      var country := NormaliseCountry(raw.country);
      NormalisePhone(lib, raw.phone, if country.Ok? then Some(country.value) else None)
    case GivenName => NormaliseName(raw.givenName)
    case FamilyName => NormaliseName(raw.familyName)
    case StreetAddress => NormaliseStreet(raw.streetAddress)
    case City => LowercaseCollapsed(raw.city)
    case Region => LowercaseCollapsed(raw.region)
    case PostalCode => NormalisePostalCode(raw.postalCode)
    case WholeRecord => Err(Missing)
  }

  function HashOrNone(lib: Libraries, outcome: Normalised): Option<Digest> {
    match outcome
    case Ok(value) => Some(lib.sha256(value))
    case Err(_) => None
  }

  function PlainOrNone(outcome: Normalised): Option<string> {
    match outcome
    case Ok(value) => Some(value)
    case Err(_) => None
  }

  /** Every field that normalised, hashed unless it is one of the four sent in the clear. */
  function CleanIdentifiers(lib: Libraries, raw: RawIdentifiers): (h: HashedIdentifiers)
    ensures h.PlainFieldsVisible()
  {
    HashedIdentifiers(
      HashOrNone(lib, FieldOutcome(lib, raw, Email)),
      HashOrNone(lib, FieldOutcome(lib, raw, Phone)),
      HashOrNone(lib, FieldOutcome(lib, raw, GivenName)),
      HashOrNone(lib, FieldOutcome(lib, raw, FamilyName)),
      HashOrNone(lib, FieldOutcome(lib, raw, StreetAddress)),
      PlainOrNone(FieldOutcome(lib, raw, City)),
      PlainOrNone(FieldOutcome(lib, raw, Region)),
      PlainOrNone(FieldOutcome(lib, raw, PostalCode)),
      PlainOrNone(FieldOutcome(lib, raw, Country)))
  }

  predicate FieldFails(lib: Libraries, raw: RawIdentifiers, field: Field) {
    RawField(raw, field).Some? && FieldOutcome(lib, raw, field).Err?
  }

  /** One rejection for each field of `fields` that is present and did not normalise, in order. */
  function FieldRejections(lib: Libraries, raw: RawIdentifiers, fields: seq<Field>): (r: seq<FieldRejection>)
    ensures r == [] <==> forall f :: f in fields ==> !FieldFails(lib, raw, f)
  {
    if fields == [] then []
    else
      var rest := FieldRejections(lib, raw, fields[1..]);
      if FieldFails(lib, raw, fields[0])
      then [FieldRejection(fields[0], FieldOutcome(lib, raw, fields[0]).error)] + rest
      else rest
  }

  /** Both halves of the outcome for one record. */
  function UserIdentifiersOf(lib: Libraries, raw: RawIdentifiers): BuildResult {
    var identifiers := CleanIdentifiers(lib, raw);
    var rejections := FieldRejections(lib, raw, FIELDS);
    BuildResult(identifiers,
                if identifiers.HasMatchKey() then rejections
                else rejections + [FieldRejection(WholeRecord, NoMatchKey)])
  }

  lemma FieldsCoverAll(lib: Libraries, raw: RawIdentifiers)
    ensures FieldRejections(lib, raw, FIELDS) == [] <==> forall f :: f != WholeRecord ==> !FieldFails(lib, raw, f)
  {
    forall f: Field | f != WholeRecord ensures f in FIELDS {
      FieldIsListed(f);
    }
  }

  /** The record is accepted exactly when every present field normalises and together they identify someone. */
  lemma AcceptedIff(lib: Libraries, raw: RawIdentifiers)
    ensures UserIdentifiersOf(lib, raw).rejections == []
            <==> CleanIdentifiers(lib, raw).HasMatchKey()
                 && forall f :: f != WholeRecord ==> !FieldFails(lib, raw, f)
  {
    FieldsCoverAll(lib, raw);
    var rejections := FieldRejections(lib, raw, FIELDS);
    assert |rejections + [FieldRejection(WholeRecord, NoMatchKey)]| > 0;
  }

  lemma FieldIsListed(f: Field)
    requires f != WholeRecord
    ensures f in FIELDS
  {
    var k := match f
      case Country => 0 case Email => 1 case Phone => 2 case GivenName => 3 case FamilyName => 4
      case StreetAddress => 5 case City => 6 case Region => 7 case _ => 8;
    assert FIELDS[k] == f;
  }

  /** The builder's pass over the attempted fields. */
  method CollectRejections(lib: Libraries, raw: RawIdentifiers, fields: seq<Field>)
    returns (rejections: seq<FieldRejection>)
    ensures rejections == FieldRejections(lib, raw, fields)
  {
    rejections := [];
    for i := 0 to |fields|
      invariant rejections + FieldRejections(lib, raw, fields[i..]) == FieldRejections(lib, raw, fields)
    {
      var outcome := FieldOutcome(lib, raw, fields[i]);
      assert fields[i..][1..] == fields[i + 1..];
      if RawField(raw, fields[i]).Some? && outcome.Err? {
        rejections := rejections + [FieldRejection(fields[i], outcome.error)];
      }
    }
  }

  /** The builder: every field is attempted, then the record as a whole is checked. */
  method BuildUserIdentifiers(lib: Libraries, raw: RawIdentifiers) returns (r: BuildResult)
    ensures r == UserIdentifiersOf(lib, raw)
    ensures r.rejections == []
            <==> r.identifiers.HasMatchKey() && forall f :: f != WholeRecord ==> !FieldFails(lib, raw, f)
  {
    var rejections := CollectRejections(lib, raw, FIELDS);
    var identifiers := CleanIdentifiers(lib, raw);
    AcceptedIff(lib, raw);
    if !identifiers.HasMatchKey() {
      rejections := rejections + [FieldRejection(WholeRecord, NoMatchKey)];
    }
    r := BuildResult(identifiers, rejections);
  }
}

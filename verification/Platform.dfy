/** The ad platform: which conversion rows it accepts, and how it reports a batch. */
module Platform {
  import opened Wrappers
  import opened Text
  import opened Consent
  import opened Identifiers
  import opened Model
  import opened ConversionRows
  import opened Json

  // --- The decision about one row ---

  /** `re.match` with a pattern ending in `$` also accepts one newline after the text. */
  function BeforeFinalNewline(s: string): string {
    if s != "" && s[|s| - 1] == '\n' then s[..|s| - 1] else s
  }

  predicate AllHex(s: string) {
    forall i :: 0 <= i < |s| ==> IsHexDigit(s[i])
  }

  /** ^[0-9a-f]{64}$ */
  predicate IsHex64(s: string) {
    var t := BeforeFinalNewline(s);
    |t| == 64 && AllHex(t)
  }

  predicate IsActionCharacter(c: char) {
    IsLetter(c) || IsDigit(c) || c == '_'
  }

  /** ^customers/\d+/conversionActions/[A-Za-z0-9_]+$ */
  predicate IsActionResource(s: string) {
    var t := BeforeFinalNewline(s);
    var head, middle := "customers/", "/conversionActions/";
    head <= t &&
    var rest := t[|head|..];
    var digits := Find(rest, '/');
    && digits > 0 && (forall i :: 0 <= i < digits ==> IsDigit(rest[i]))
    && middle <= rest[digits..] &&
    var name := rest[digits..][|middle|..];
    name != "" && forall i :: 0 <= i < |name| ==> IsActionCharacter(name[i])
  }

  /** The digits of "yyyy-mm-dd hh:mm:ss+hh:mm" are wherever this picture has a 9. */
  const TIME_PICTURE := "9999-99-99 99:99:99+99:99"

  /** ^\d{4}-\d{2}-\d{2} \d{2}:\d{2}:\d{2}[+-]\d{2}:\d{2}$ */
  predicate IsDateTime(s: string) {
    var t := BeforeFinalNewline(s);
    |t| == |TIME_PICTURE|
    && forall i :: 0 <= i < |t| ==>
         if TIME_PICTURE[i] == '9' then IsDigit(t[i])
         else if TIME_PICTURE[i] == '+' then t[i] == '+' || t[i] == '-'
         else t[i] == TIME_PICTURE[i]
  }

  /** The text after the last slash. */
  function ActionName(resource: string): string {
    if '/' in resource then ActionName(resource[Find(resource, '/') + 1..]) else resource
  }

  /** A hashed field of an identifier that is not 64 hex characters. */
  predicate HasBadDigest(identifier: UserIdentifier) {
    match identifier
    case HashedEmail(d) => !IsHex64(d)
    case HashedPhoneNumber(d) => !IsHex64(d)
    case AddressInfo(fields) =>
      exists k :: k in {HashedFirstName, HashedLastName, HashedStreetAddress} && k in fields && !IsHex64(fields[k])
  }

  /** What is wrong with the action or the time of a row. */
  function ShapeError(row: ConversionRow, knownActions: set<string>): Option<string> {
    if !IsActionResource(row.conversionAction) then Some("INVALID_CONVERSION_ACTION")
    else if ActionName(row.conversionAction) !in knownActions then Some("CONVERSION_ACTION_NOT_FOUND")
    else if !IsDateTime(row.conversionDateTime) then Some("INVALID_CONVERSION_DATE_TIME")
    else None
  }

  predicate HasBadDigests(row: ConversionRow) {
    exists i :: 0 <= i < |row.userIdentifiers| && HasBadDigest(row.userIdentifiers[i])
  }

  /** What is wrong with the identifiers or the consent of a row. */
  function IdentityError(row: ConversionRow): Option<string> {
    if !IsSent(row.gclid) && row.userIdentifiers == [] then Some("USER_IDENTIFIER_REQUIRED")
    else if HasBadDigests(row) then Some("INVALID_USER_IDENTIFIER")
    else if row.userIdentifiers != []
            && !(row.consent.Some? && row.consent.value.adUserData == Some(Granted))
    then Some("CONSENT_REQUIRED_FOR_USER_IDENTIFIERS")
    else None
  }

  /** The error code of a row, or None when it is acceptable. */
  function ValidateRow(row: ConversionRow, knownActions: set<string>): Option<string> {
    var shape := ShapeError(row, knownActions);
    if shape.Some? then shape else IdentityError(row)
  }

  /** The refusals that say something is wrong with the identifiers or the consent of a row. */
  const IDENTIFIER_REFUSALS: set<string> :=
    {"USER_IDENTIFIER_REQUIRED", "INVALID_USER_IDENTIFIER", "CONSENT_REQUIRED_FOR_USER_IDENTIFIERS"}

  predicate RefusedForIdentifiers(row: ConversionRow, knownActions: set<string>) {
    var code := ValidateRow(row, knownActions);
    code.Some? && code.value in IDENTIFIER_REFUSALS
  }

  lemma DigestFieldIsHex(h: HashedIdentifiers, address: map<AddressKey, string>, k: AddressKey)
    requires address == AddressOf(h, ADDRESS_KEYS) && k in address
    requires k in {HashedFirstName, HashedLastName, HashedStreetAddress}
    ensures IsHex64(address[k])
  {
    assert AddressField(h, k) == Some(address[k]);
  }

  lemma DigestsAreHex(h: HashedIdentifiers)
    ensures forall i :: 0 <= i < |SentIdentifiers(h)| ==> !HasBadDigest(SentIdentifiers(h)[i])
  {
    var sent := SentIdentifiers(h);
    forall i | 0 <= i < |sent| ensures !HasBadDigest(sent[i]) {
      if sent[i].AddressInfo? {
        forall k | k in {HashedFirstName, HashedLastName, HashedStreetAddress} && k in sent[i].fields
          ensures IsHex64(sent[i].fields[k])
        {
          DigestFieldIsHex(h, sent[i].fields, k);
        }
      }
    }
  }

  /** No code of the first check is as long as a code of the second. */
  lemma ShapeCodeLength(row: ConversionRow, knownActions: set<string>)
    ensures ShapeError(row, knownActions).Some? ==> |ShapeError(row, knownActions).value| in {25, 27, 28}
  {
    assert |"INVALID_CONVERSION_ACTION"| == 25 && |"CONVERSION_ACTION_NOT_FOUND"| == 27
           && |"INVALID_CONVERSION_DATE_TIME"| == 28;
  }

  lemma RefusalCodeLength(code: string)
    requires code in IDENTIFIER_REFUSALS
    ensures |code| in {24, 23, 37}
  {
    assert |"USER_IDENTIFIER_REQUIRED"| == 24 && |"INVALID_USER_IDENTIFIER"| == 23
           && |"CONSENT_REQUIRED_FOR_USER_IDENTIFIERS"| == 37;
  }

  lemma IdentityCodeIsRefusal(row: ConversionRow)
    ensures IdentityError(row).Some? ==> IdentityError(row).value in IDENTIFIER_REFUSALS
  {
  }

  /** Which of the two checks a refusal code comes from. */
  lemma RefusalComesFrom(row: ConversionRow, knownActions: set<string>)
    ensures RefusedForIdentifiers(row, knownActions)
            <==> ShapeError(row, knownActions).None? && IdentityError(row).Some?
  {
    IdentityCodeIsRefusal(row);
    ShapeCodeLength(row, knownActions);
    var shape := ShapeError(row, knownActions);
    if shape.Some? && shape.value in IDENTIFIER_REFUSALS {
      RefusalCodeLength(shape.value);
    }
  }

  /** The row of an event fails the identity check exactly when it names nobody or names someone without consent. */
  lemma IdentityErrorIff(id: EventId, event: Event, customerId: string)
    requires event.facts.conversion.Some?
    requires event.digests.Some? && event.digests.value.PlainFieldsVisible()
    ensures IdentityError(ConversionOf(id, event, customerId)).Some?
            <==> if event.digests.value.HasMatchKey() then event.facts.consent.adUserData != Some(Granted)
                 else !event.facts.HasClickId()
  {
    MatchKeyIffIdentifiersSent(event.digests.value);
    DigestsAreHex(event.digests.value);
    var row := ConversionOf(id, event, customerId);
    assert row.userIdentifiers == SentIdentifiers(event.digests.value);
    assert !HasBadDigests(row);
    assert IsSent(row.gclid) <==> event.facts.HasClickId();
  }

  /**
   * The row of an event is refused over identifiers or consent exactly when the checks before that
   * pass and either it names nobody, or it sends identifiers without the user's consent.
   */
  lemma IdentifierRefusalIff(id: EventId, event: Event, customerId: string, knownActions: set<string>)
    requires event.facts.conversion.Some?
    requires event.digests.Some? && event.digests.value.PlainFieldsVisible()
    ensures var row := ConversionOf(id, event, customerId);
            RefusedForIdentifiers(row, knownActions)
            <==> && IsActionResource(row.conversionAction) && ActionName(row.conversionAction) in knownActions
                 && IsDateTime(row.conversionDateTime)
                 && if event.digests.value.HasMatchKey() then event.facts.consent.adUserData != Some(Granted)
                    else !event.facts.HasClickId()
  {
    RefusalComesFrom(ConversionOf(id, event, customerId), knownActions);
    IdentityErrorIff(id, event, customerId);
  }

  // --- The answer to a batch ---

  /** The result object of an accepted row. */
  function AcceptedResult(row: ConversionRow): Json {
    Object([("gclid", match row.gclid case Some(g) => Str(g) case None => Null),
            ("conversionAction", Str(row.conversionAction)),
            ("conversionDateTime", Str(row.conversionDateTime)),
            ("orderId", Str(row.orderId))])
  }

  function RowMessage(index: nat, code: string): string {
    "row " + Decimal(index) + ": " + code
  }

  function Location(index: nat): Json {
    Obj(["fieldPathElements"], map["fieldPathElements" := Arr([
      Obj(["fieldName", "index"], map["fieldName" := Str("conversions"), "index" := Int(index)])])])
  }

  /** The error object of a refused row. */
  function RowError(index: nat, code: string): Json {
    Obj(["errorCode", "message", "location"],
        map["errorCode" := Obj(["conversionUploadError"], map["conversionUploadError" := Str(code)]),
            "message" := Str(RowMessage(index, code)),
            "location" := Location(index)])
  }

  /** One result per row; an empty object for a refused row. */
  function Results(rows: seq<ConversionRow>, verdicts: seq<Option<string>>): (r: seq<Json>)
    requires |rows| == |verdicts|
    ensures |r| == |rows|
    ensures forall i :: 0 <= i < |r| ==> r[i] == if verdicts[i].None? then AcceptedResult(rows[i]) else EMPTY_OBJECT
  {
    seq(|rows|, i requires 0 <= i < |rows| =>
      if verdicts[i].None? then AcceptedResult(rows[i]) else EMPTY_OBJECT)
  }

  /** One error per refused row, in row order. */
  function Errors(verdicts: seq<Option<string>>): seq<Json> {
    if verdicts == [] then []
    else
      var last := |verdicts| - 1;
      Errors(verdicts[..last])
      + match verdicts[last] case Some(code) => [RowError(last, code)] case None => []
  }

  /** The response body: the results, and the errors if there are any. */
  function Body(results: seq<Json>, errors: seq<Json>): Json {
    if errors == [] then Obj(["results"], map["results" := Arr(results)])
    else
      var detail := Obj(["@type", "errors"],
        map["@type" := Str("type.googleapis.com/google.ads.googleads.errors.GoogleAdsFailure"),
            "errors" := Arr(errors)]);
      var failure := Obj(["code", "message", "details"],
        map["code" := Int(3),
            "message" := Str(Decimal(|errors|) + " of " + Decimal(|results|) + " conversions failed"),
            "details" := Arr([detail])]);
      Obj(["results", "partialFailureError"],
          map["results" := Arr(results), "partialFailureError" := failure])
  }

  /** The response body for a batch with these verdicts. */
  function Render(rows: seq<ConversionRow>, verdicts: seq<Option<string>>): Json
    requires |rows| == |verdicts|
  {
    Body(Results(rows, verdicts), Errors(verdicts))
  }

  /** The verdict on one row: an injected failure if there is one, else the row check. */
  function Verdict(row: ConversionRow, index: nat, injected: map<nat, string>, knownActions: set<string>)
    : Option<string>
  {
    if index in injected && injected[index] != "" then Some(injected[index]) else ValidateRow(row, knownActions)
  }

  function Verdicts(rows: seq<ConversionRow>, injected: map<nat, string>, knownActions: set<string>)
    : (v: seq<Option<string>>)
    ensures |v| == |rows|
    ensures forall i :: 0 <= i < |rows| ==> v[i] == Verdict(rows[i], i, injected, knownActions)
  {
    seq(|rows|, i requires 0 <= i < |rows| => Verdict(rows[i], i, injected, knownActions))
  }

  /** The rows without an error, in order. */
  function AcceptedRows(rows: seq<ConversionRow>, verdicts: seq<Option<string>>): seq<ConversionRow>
    requires |rows| == |verdicts|
  {
    if rows == [] then []
    else
      var last := |rows| - 1;
      AcceptedRows(rows[..last], verdicts[..last]) + if verdicts[last].None? then [rows[last]] else []
  }

  /** The platform's store of accepted rows. */
  class MockPlatform {
    const knownActions: set<string>
    var uploads: seq<ConversionRow>
    var requestCount: nat

    constructor (knownActions: set<string>)
      ensures this.knownActions == knownActions && uploads == [] && requestCount == 0
    {
      this.knownActions := knownActions;
      uploads := [];
      requestCount := 0;
    }

    /** One upload request that reaches row validation: keeps the accepted rows and renders the answer. */
    method Upload(rows: seq<ConversionRow>, injected: map<nat, string>) returns (body: Json)
      modifies this
      ensures var verdicts := Verdicts(rows, injected, knownActions);
              body == Render(rows, verdicts) && uploads == old(uploads) + AcceptedRows(rows, verdicts)
      ensures requestCount == old(requestCount) + 1
    {
      requestCount := requestCount + 1;
      var results, errors := Report(rows, Verdicts(rows, injected, knownActions));
      body := Body(results, errors);
    }

    /** The pass over the rows of one request, given the verdict on each. */
    method Report(rows: seq<ConversionRow>, verdicts: seq<Option<string>>)
      returns (results: seq<Json>, errors: seq<Json>)
      requires |rows| == |verdicts|
      modifies this`uploads
      ensures results == Results(rows, verdicts) && errors == Errors(verdicts)
      ensures uploads == old(uploads) + AcceptedRows(rows, verdicts)
    {
      ghost var allResults := Results(rows, verdicts);
      results, errors := [], [];
      for index := 0 to |rows|
        invariant results == allResults[..index]
        invariant errors == Errors(verdicts[..index])
        invariant uploads == old(uploads) + AcceptedRows(rows[..index], verdicts[..index])
      {
        OneMoreRow(rows, verdicts, index);
        match verdicts[index] {
          case Some(code) =>
            results := results + [EMPTY_OBJECT];
            errors := errors + [RowError(index, code)];
          case None =>
            uploads := uploads + [rows[index]];
            results := results + [AcceptedResult(rows[index])];
        }
      }
      assert rows[..|rows|] == rows && verdicts[..|rows|] == verdicts && allResults[..|rows|] == allResults;
    }
  }

  lemma OneMoreRow(rows: seq<ConversionRow>, verdicts: seq<Option<string>>, index: nat)
    requires |rows| == |verdicts| && index < |rows|
    ensures Errors(verdicts[..index + 1])
            == Errors(verdicts[..index])
               + match verdicts[index] case Some(code) => [RowError(index, code)] case None => []
    ensures AcceptedRows(rows[..index + 1], verdicts[..index + 1])
            == AcceptedRows(rows[..index], verdicts[..index]) + if verdicts[index].None? then [rows[index]] else []
    ensures Results(rows, verdicts)[..index + 1] == Results(rows, verdicts)[..index] + [Results(rows, verdicts)[index]]
  {
    assert verdicts[..index + 1][..index] == verdicts[..index];
    assert rows[..index + 1][..index] == rows[..index];
  }
}

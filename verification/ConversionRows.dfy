/** The request row built from a ledger row. */
module ConversionRows {
  import opened Wrappers
  import opened Identifiers
  import opened Model

  function ConversionActionResource(customerId: string, action: string): string {
    "customers/" + customerId + "/conversionActions/" + action
  }

  /** The address keys in the order in which the row builder visits them. */
  const ADDRESS_KEYS: seq<AddressKey> :=
    [HashedFirstName, HashedLastName, HashedStreetAddress, AddressCity, AddressState, AddressPostalCode,
     AddressCountryCode]

  function AddressField(h: HashedIdentifiers, key: AddressKey): Option<string> {
    match key
    case HashedFirstName => AsText(h.givenName)
    case HashedLastName => AsText(h.familyName)
    case HashedStreetAddress => AsText(h.streetAddress)
    case AddressCity => h.city
    case AddressState => h.region
    case AddressPostalCode => h.postalCode
    case AddressCountryCode => h.country
  }

  function AsText(d: Option<Digest>): Option<string> {
    match d case Some(x) => Some(x) case None => None
  }

  /** Present and not the empty text. */
  predicate IsSent(field: Option<string>) {
    field.Some? && field.value != ""
  }

  function AddressOf(h: HashedIdentifiers, keys: seq<AddressKey>): map<AddressKey, string> {
    map k | k in keys && IsSent(AddressField(h, k)) :: AddressField(h, k).value
  }

  /** Both names, a postal code and a country: what makes an address block usable. */
  predicate IsCompleteAddress(address: map<AddressKey, string>) {
    HashedFirstName in address && HashedLastName in address
    && AddressPostalCode in address && AddressCountryCode in address
  }

  function SentIdentifiers(h: HashedIdentifiers): seq<UserIdentifier> {
    (if h.email.Some? then [HashedEmail(h.email.value)] else [])
    + (if h.phone.Some? then [HashedPhoneNumber(h.phone.value)] else [])
    + (var address := AddressOf(h, ADDRESS_KEYS);
       if IsCompleteAddress(address) then [AddressInfo(address)] else [])
  }

  /** The builder's own pass over the address fields. */
  method BuildUserIdentifierList(h: HashedIdentifiers) returns (out: seq<UserIdentifier>)
    ensures out == SentIdentifiers(h)
  {
    out := [];
    if h.email.Some? && h.email.value != "" {
      out := out + [HashedEmail(h.email.value)];
    }
    if h.phone.Some? && h.phone.value != "" {
      out := out + [HashedPhoneNumber(h.phone.value)];
    }
    var address: map<AddressKey, string> := map[];
    for i := 0 to |ADDRESS_KEYS|
      invariant address == AddressOf(h, ADDRESS_KEYS[..i])
    {
      var field := AddressField(h, ADDRESS_KEYS[i]);
      assert ADDRESS_KEYS[..i + 1] == ADDRESS_KEYS[..i] + [ADDRESS_KEYS[i]];
      if IsSent(field) {
        address := address[ADDRESS_KEYS[i] := field.value];
      }
    }
    assert ADDRESS_KEYS[..|ADDRESS_KEYS|] == ADDRESS_KEYS;
    if IsCompleteAddress(address) {
      out := out + [AddressInfo(address)];
    }
  }

  /** The request row of an event whose conversion details are known. */
  function ConversionOf(id: EventId, event: Event, customerId: string): ConversionRow
    requires event.facts.conversion.Some?
  {
    var conversion := event.facts.conversion.value;
    var identifiers := match event.digests case Some(h) => SentIdentifiers(h) case None => [];
    ConversionRow(
      ConversionActionResource(customerId, conversion.action),
      conversion.time,
      id,
      conversion.value,
      if IsSent(conversion.currency) then conversion.currency else None,
      if event.facts.HasClickId() then event.facts.clickId else None,
      identifiers,
      if identifiers != [] then Some(event.facts.consent) else None)
  }

  /** A record holds a match key exactly when the row sends at least one identifier. */
  lemma MatchKeyIffIdentifiersSent(h: HashedIdentifiers)
    requires h.PlainFieldsVisible()
    ensures h.HasMatchKey() <==> SentIdentifiers(h) != []
  {
    var address := AddressOf(h, ADDRESS_KEYS);
    assert IsCompleteAddress(address)
           <==> h.givenName.Some? && h.familyName.Some? && h.postalCode.Some? && h.country.Some? by {
      assert HashedFirstName in ADDRESS_KEYS && HashedLastName in ADDRESS_KEYS
             && AddressPostalCode in ADDRESS_KEYS && AddressCountryCode in ADDRESS_KEYS;
      assert HashedFirstName in address <==> IsSent(AddressField(h, HashedFirstName));
      assert HashedLastName in address <==> IsSent(AddressField(h, HashedLastName));
      assert AddressPostalCode in address <==> IsSent(AddressField(h, AddressPostalCode));
      assert AddressCountryCode in address <==> IsSent(AddressField(h, AddressCountryCode));
    }
  }
}

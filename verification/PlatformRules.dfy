/** Which rows the platform takes, position by position and for the rows the gateway builds. */
module PlatformRules {
  import opened Wrappers
  import opened Text
  import opened Consent
  import opened Model
  import opened ConversionRows
  import opened Platform

  /** "yyyy-mm-dd hh:mm:ss+hh:mm", with either sign, and possibly one newline behind it. */
  lemma DateTimeByPosition(s: string)
    ensures IsDateTime(s)
            <==> var t := if s != "" && s[|s| - 1] == '\n' then s[..|s| - 1] else s;
                 && |t| == 25
                 && IsDigit(t[0]) && IsDigit(t[1]) && IsDigit(t[2]) && IsDigit(t[3]) && t[4] == '-'
                 && IsDigit(t[5]) && IsDigit(t[6]) && t[7] == '-'
                 && IsDigit(t[8]) && IsDigit(t[9]) && t[10] == ' '
                 && IsDigit(t[11]) && IsDigit(t[12]) && t[13] == ':'
                 && IsDigit(t[14]) && IsDigit(t[15]) && t[16] == ':'
                 && IsDigit(t[17]) && IsDigit(t[18]) && t[19] in {'+', '-'}
                 && IsDigit(t[20]) && IsDigit(t[21]) && t[22] == ':'
                 && IsDigit(t[23]) && IsDigit(t[24])
  {
  }

  lemma {:induction false} NameAfterSlash(head: string, name: string)
    requires '/' !in name
    ensures ActionName(head + "/" + name) == name
    decreases |head|
  {
    var s := head + "/" + name;
    if '/' in head {
      var k := Find(head, '/');
      FindsFirst(head, "/" + name);
      assert head + "/" + name == head + ("/" + name);
      assert s[k + 1..] == head[k + 1..] + "/" + name;
      NameAfterSlash(head[k + 1..], name);
    } else {
      FindAtConcat(head, '/', name);
      assert s[|head| + 1..] == name && s[|head|] == '/';
    }
  }

  lemma FindsFirst(a: string, b: string)
    requires '/' in a
    ensures Find(a + b, '/') == Find(a, '/') < |a|
  {
    var s, k := a + b, Find(a, '/');
    assert k < |a|;
    assert forall i :: 0 <= i < k ==> a[i] in a[..k] && s[i] == a[i];
    var m := Find(s, '/');
    assert s[k] == '/';
    assert forall i :: 0 <= i < m ==> s[i] in s[..m];
  }

  /** The platform reads the action back out of the resource that the gateway wrote. */
  lemma ActionReadsBack(customerId: string, action: string)
    requires '/' !in action
    ensures ActionName(ConversionActionResource(customerId, action)) == action
  {
    var head := "customers/" + customerId + "/conversionActions";
    assert "/conversionActions/" == "/conversionActions" + "/";
    assert ConversionActionResource(customerId, action) == head + "/" + action;
    NameAfterSlash(head, action);
  }

  /** The platform takes a row exactly when nothing is wrong with its action, time, identifiers or consent. */
  lemma AcceptedIff(row: ConversionRow, knownActions: set<string>)
    ensures ValidateRow(row, knownActions) == None
            <==> && IsActionResource(row.conversionAction) && ActionName(row.conversionAction) in knownActions
                 && IsDateTime(row.conversionDateTime)
                 && ((row.gclid.Some? && row.gclid.value != "") || row.userIdentifiers != [])
                 && (forall u :: u in row.userIdentifiers ==> IsWellHashed(u))
                 && (row.userIdentifiers != [] ==>
                       row.consent.Some? && row.consent.value.adUserData == Some(Granted))
  {
    hide IsActionResource, ActionName, IsDateTime, HasBadDigest;
    forall u | u in row.userIdentifiers ensures IsWellHashed(u) <==> !HasBadDigest(u) {
      WellHashedIff(u);
    }
    if HasBadDigests(row) {
      var i :| 0 <= i < |row.userIdentifiers| && HasBadDigest(row.userIdentifiers[i]);
      assert row.userIdentifiers[i] in row.userIdentifiers;
    }
  }

  /** 64 lowercase hex characters in every hashed field that is there, a newline behind them allowed. */
  predicate IsWellHashed(u: UserIdentifier) {
    match u
    case HashedEmail(d) => IsHexText(d)
    case HashedPhoneNumber(d) => IsHexText(d)
    case AddressInfo(fields) =>
      && (HashedFirstName in fields ==> IsHexText(fields[HashedFirstName]))
      && (HashedLastName in fields ==> IsHexText(fields[HashedLastName]))
      && (HashedStreetAddress in fields ==> IsHexText(fields[HashedStreetAddress]))
  }

  predicate IsHexText(s: string) {
    (|s| == 64 || (|s| == 65 && s[64] == '\n'))
    && forall i :: 0 <= i < 64 ==> '0' <= s[i] <= '9' || 'a' <= s[i] <= 'f'
  }

  lemma HexTextIff(s: string)
    ensures IsHexText(s) <==> IsHex64(s)
  {
  }

  lemma WellHashedIff(u: UserIdentifier)
    ensures IsWellHashed(u) <==> !HasBadDigest(u)
  {
    hide IsHexText, IsHex64;
    match u {
      case HashedEmail(d) => HexTextIff(d);
      case HashedPhoneNumber(d) => HexTextIff(d);
      case AddressInfo(fields) =>
        forall k | k in fields ensures IsHexText(fields[k]) <==> IsHex64(fields[k]) {
          HexTextIff(fields[k]);
        }
    }
  }

  /** A row is kept exactly when nothing is wrong with it and no failure was injected for its place. */
  lemma KeptIff(rows: seq<ConversionRow>, injected: map<nat, string>, knownActions: set<string>, i: nat)
    requires i < |rows|
    ensures Verdicts(rows, injected, knownActions)[i] == None
            <==> ValidateRow(rows[i], knownActions) == None && (i in injected ==> injected[i] == "")
    ensures i in injected && injected[i] != "" ==> Verdicts(rows, injected, knownActions)[i] == Some(injected[i])
  {
    hide ValidateRow;
  }
}

/** Each normal form without its normaliser: what is accepted, what comes out, and when two inputs agree. */
module NormalForms {
  import opened Wrappers
  import opened Text
  import opened Normalise

  // --- Characters ---

  /** The ten blanks, by code point: tab to carriage return, the four separators, and the space. */
  lemma SpacesByCode(c: char)
    ensures IsSpace(c) <==> 9 <= c as int <= 13 || 28 <= c as int <= 32
  {
  }

  /** Punctuation is every visible ASCII character that is no letter, no digit and no symbol. */
  lemma PunctuationIsTheRest(c: char)
    ensures IsPunctuation(c)
            <==> '!' <= c <= '~' && !IsLetter(c) && !IsDigit(c) && c !in {'$', '+', '<', '=', '>', '^', '`', '|', '~'}
  {
  }

  /** Lower and upper case are the same 26 letters, 32 apart; every other character is its own. */
  lemma CasesAreInverse(c: char)
    ensures IsLetter(c) ==> UpperChar(LowerChar(c)) == UpperChar(c) && LowerChar(UpperChar(c)) == LowerChar(c)
    ensures IsLetter(c) ==> 'a' <= LowerChar(c) <= 'z' && UpperChar(c) as int + 32 == LowerChar(c) as int
    ensures IsLetter(c) ==> c == LowerChar(c) || c == UpperChar(c)
    ensures !IsLetter(c) ==> LowerChar(c) == c == UpperChar(c)
    ensures IsLetter(c) <==> 65 <= c as int <= 90 || 97 <= c as int <= 122
    ensures IsDigit(c) <==> 48 <= c as int <= 57
  {
  }

  /** What a decimal text says. */
  function Number(digits: string): int {
    if digits == "" then 0
    else 10 * Number(digits[..|digits| - 1]) + (digits[|digits| - 1] as int - 48)
  }

  /** Writing a number and reading it gives the number back, from digits without a leading zero. */
  lemma {:induction false} DecimalReadsBack(n: nat)
    ensures Number(Decimal(n)) == n
    ensures forall c :: c in Decimal(n) ==> IsDigit(c)
    ensures n > 0 ==> Decimal(n)[0] != '0'
    decreases n
  {
    var text := Decimal(n);
    if n < 10 {
      assert text[..0] == "";
    } else {
      DecimalReadsBack(n / 10);
      assert text[..|text| - 1] == Decimal(n / 10);
      assert text[|text| - 1] as int - 48 == n % 10;
    }
  }

  /** A character at a time: punctuation goes, everything else stays, in lower case. */
  lemma BareByCharacter(c: char, rest: string)
    ensures Bare([c] + rest) == (if IsPunctuation(LowerChar(c)) then [] else [LowerChar(c)]) + Bare(rest)
  {
    BareConcat([c], rest);
    var one := Lower([c]);
    assert one == [LowerChar(c)] && one[1..] == [];
  }

  // --- E-mail ---

  /** Exactly one `@` with text on both sides. */
  predicate IsSplit(value: string, local: string, domain: string) {
    value == local + "@" + domain && local != "" && domain != "" && '@' !in local && '@' !in domain
  }

  lemma SplitIff(value: string, local: string, domain: string)
    ensures SplitAddress(value) == Some((local, domain)) <==> IsSplit(value, local, domain)
  {
    if IsSplit(value, local, domain) {
      SplitJoined(local, domain);
    }
  }

  /** What reaches one inbox at this domain: at Google's two, dots and all from the plus on do not count. */
  function Inbox(local: string, domain: string): string {
    if domain == "gmail.com" || domain == "googlemail.com" then DropDots(CutAtPlus(local)) else local
  }

  /** The form of every address, and that nothing else is accepted. */
  lemma EmailFormIff(raw: string, form: string)
    ensures NormaliseEmail(Some(raw)) == Ok(form)
            <==> exists local, domain ::
                   IsSplit(Lower(Strip(raw)), local, domain) && Inbox(local, domain) != ""
                   && form == Inbox(local, domain) + "@" + domain
    ensures NormaliseEmail(Some(raw)) == Err(Empty) <==> Strip(raw) == ""
    ensures NormaliseEmail(Some(raw)).Err? ==> NormaliseEmail(Some(raw)).error in {Empty, Malformed}
  {
    hide DropDots, CutAtPlus, Strip, Lower, SplitAddress;
    var value := Lower(Strip(raw));
    assert value == "" <==> Strip(raw) == "";
    match SplitAddress(value) {
      case Some((local, domain)) =>
        SplitIff(value, local, domain);
        DotsAndCutCommute(local);
        forall l, d | IsSplit(value, l, d) ensures l == local && d == domain {
          SplitIff(value, l, d);
        }
      case None =>
        forall l, d ensures !IsSplit(value, l, d) {
          SplitIff(value, l, d);
        }
        EmptySplitsNot();
    }
  }

  lemma EmptySplitsNot()
    ensures SplitAddress("") == None
  {
  }

  /** What is before the first plus, and the dots of which are gone: no plus, no dot, the rest in order. */
  lemma InboxByCharacter(c: char, rest: string)
    ensures DropDots(CutAtPlus([c] + rest))
            == if c == '+' then "" else (if c == '.' then "" else [c]) + DropDots(CutAtPlus(rest))
  {
    var s := [c] + rest;
    assert s[1..] == rest;
    if c == '+' {
      assert CutAtPlus(s) == [];
    } else {
      assert CutAtPlus(s) == [c] + CutAtPlus(rest);
      assert CutAtPlus(s)[1..] == CutAtPlus(rest);
    }
  }

  // --- Names ---

  /** Titles and suffixes drop out of a name; every other word stays. */
  lemma WordOfName(word: string, name: string)
    requires IsWord(word) && IsBare(word)
    ensures NameText(word + " " + name)
            == (if word in {"mr", "mrs", "ms", "miss", "mx", "dr", "prof", "sir", "madam",
                            "jr", "sr", "ii", "iii", "iv", "esq", "phd", "md"}
                then "" else word) + NameText(name)
  {
    hide NormaliseName;
    NamesConcatenate(word, name);
    NameOfOneWord(word);
    assert NameText(word) == if IsStripToken(word) then "" else word by {
      if !IsStripToken(word) {
        assert NormaliseName(Some(word)) == Ok(word);
      }
    }
  }

  /** A name is refused exactly when nothing of it is left. */
  lemma NameAcceptedIff(raw: string)
    ensures NormaliseName(Some(raw)) == if NameText(raw) == "" then Err(Empty) else Ok(NameText(raw))
  {
    var tokens := NameTokens(Words(Bare(Strip(raw))));
    if tokens != [] {
      assert tokens[0] in tokens && IsWord(tokens[0]);
      assert Glue(tokens)[0] == tokens[0][0];
    }
  }

  // --- Addresses ---

  lemma LowerWordsIgnoreStrip(raw: string)
    ensures Words(Lower(Strip(raw))) == Words(Lower(raw))
  {
    var left, right := StripIsMiddle(raw);
    LowerConcat(left + Strip(raw), right);
    LowerConcat(left, Strip(raw));
    assert forall c :: c in left ==> c in left + right;
    assert forall c :: c in right ==> c in left + right;
    LowerIsFixed(left);
    LowerIsFixed(right);
    WordsIgnoreMargins(left, Lower(Strip(raw)), right);
  }

  lemma JoinedIsEmptyIff(ws: seq<string>)
    requires forall w :: w in ws ==> IsWord(w)
    ensures Join(" ", ws) == "" <==> ws == []
  {
    if ws != [] {
      assert ws[0] in ws;
      assert Join(" ", ws)[0] == ws[0][0];
    }
  }

  /** A city or region is its lower-cased words with one blank between them, and refused when there are none. */
  lemma CityFormIff(raw: string, form: string)
    ensures LowercaseCollapsed(Some(raw)) == Ok(form)
            <==> Words(Lower(raw)) != [] && Words(form) == Words(Lower(raw)) && form == Join(" ", Words(form))
    ensures LowercaseCollapsed(Some(raw)).Err? ==> LowercaseCollapsed(Some(raw)) == Err(Empty)
  {
    hide Words, Join;
    var ws := Words(Lower(raw));
    LowerWordsIgnoreStrip(raw);
    WordsOfJoined(ws);
    JoinedIsEmptyIff(ws);
  }

  /** Two streets have one form exactly when their words agree, case and punctuation aside. */
  lemma StreetFormIff(raw: string, form: string)
    ensures NormaliseStreet(Some(raw)) == Ok(form)
            <==> Words(Bare(raw)) != [] && Words(form) == Words(Bare(raw)) && form == Join(" ", Words(form))
    ensures NormaliseStreet(Some(raw)).Err? ==> NormaliseStreet(Some(raw)) == Err(Empty)
  {
    hide Words, Join;
    BareWordsIgnoreStrip(raw);
    WordsOfJoined(Words(Bare(raw)));
  }

  /** A postal code is what is left when the margins go. */
  lemma PostalFormIff(raw: string, form: string)
    ensures NormalisePostalCode(Some(raw)) == Ok(form)
            <==> form != "" && !IsSpace(form[0]) && !IsSpace(form[|form| - 1])
                 && exists left, right :: raw == left + form + right && forall c :: c in left + right ==> IsSpace(c)
    ensures NormalisePostalCode(Some(raw)).Err? ==> NormalisePostalCode(Some(raw)) == Err(Empty)
  {
    hide TrimLeft, TrimRight, IsSpace;
    if NormalisePostalCode(Some(raw)) == Ok(form) {
      var left, right := StripIsMiddle(raw);
      assert raw == left + form + right;
    }
    if form != "" && !IsSpace(form[0]) && !IsSpace(form[|form| - 1]) {
      if left, right :| raw == left + form + right && forall c :: c in left + right ==> IsSpace(c) {
        MiddleIsStrip(left, form, right);
      }
    }
  }

  lemma {:induction false} TrimLeftOf(left: string, s: string)
    requires (forall c :: c in left ==> IsSpace(c)) && s != "" && !IsSpace(s[0])
    ensures TrimLeft(left + s) == s
  {
    if left == [] {
      assert left + s == s;
    } else {
      assert (left + s)[1..] == left[1..] + s && left[0] in left;
      TrimLeftOf(left[1..], s);
    }
  }

  lemma {:induction false} TrimRightOf(s: string, right: string)
    requires (forall c :: c in right ==> IsSpace(c)) && s != "" && !IsSpace(s[|s| - 1])
    ensures TrimRight(s + right) == s
    decreases |right|
  {
    if right == [] {
      assert s + right == s;
    } else {
      var last := |right| - 1;
      assert (s + right)[..|s + right| - 1] == s + right[..last] && right[last] in right;
      TrimRightOf(s, right[..last]);
    }
  }

  lemma MiddleIsStrip(left: string, form: string, right: string)
    requires forall c :: c in left + right ==> IsSpace(c)
    requires form != "" && !IsSpace(form[0]) && !IsSpace(form[|form| - 1])
    ensures Strip(left + form + right) == form
  {
    assert forall c :: c in left ==> c in left + right;
    assert forall c :: c in right ==> c in left + right;
    assert left + form + right == left + (form + right);
    TrimLeftOf(left, form + right);
    TrimRightOf(form, right);
  }

  /** A country is two letters, upper-cased, whatever surrounds them. */
  lemma CountryFormIff(raw: string, form: string)
    ensures NormaliseCountry(Some(raw)) == Ok(form)
            <==> |form| == 2 && 'A' <= form[0] <= 'Z' && 'A' <= form[1] <= 'Z' && form == Upper(Strip(raw))
    ensures NormaliseCountry(Some(raw)) == Err(Empty) <==> Strip(raw) == ""
    ensures NormaliseCountry(Some(raw)).Err? ==> NormaliseCountry(Some(raw)).error in {Empty, NotAlpha2}
  {
  }

  /** Only a field that is not there is missing. */
  lemma AbsentIsMissing(raw: Option<string>)
    ensures NormaliseEmail(raw) == Err(Missing) <==> raw == None
    ensures NormaliseName(raw) == Err(Missing) <==> raw == None
    ensures NormaliseStreet(raw) == Err(Missing) <==> raw == None
    ensures LowercaseCollapsed(raw) == Err(Missing) <==> raw == None
    ensures NormalisePostalCode(raw) == Err(Missing) <==> raw == None
    ensures NormaliseCountry(raw) == Err(Missing) <==> raw == None
  {
    hide Strip, Lower, Upper, SplitAddress, Words, Bare, NameTokens, Glue, Join, CutAtPlus, DropDots;
  }
}

/** Canonical forms of the identifier fields, and what two inputs with the same form have in common. */
module Normalise {
  import opened Wrappers
  import opened Text

  datatype RejectionReason =
    | Missing | Empty | Malformed | Unparseable | Invalid | NoDefaultRegion | NotAlpha2 | NoMatchKey

  type Normalised = Result<string, RejectionReason>

  // --- Email ---

  predicate GoogleHosted(domain: string) {
    domain == "gmail.com" || domain == "googlemail.com"
  }

  function DropDots(local: string): string {
    Keep(local, c => c != '.')
  }

  function CutAtPlus(local: string): string {
    local[..Find(local, '+')]
  }

  /** The text before and after the one `@` of an address, both non-empty. */
  function SplitAddress(value: string): (parts: Option<(string, string)>)
    ensures parts.Some? ==>
              && value == parts.value.0 + "@" + parts.value.1
              && parts.value.0 != "" && parts.value.1 != ""
              && '@' !in parts.value.0 && '@' !in parts.value.1
  {
    var at := Find(value, '@');
    if at == |value| || at == 0 || at + 1 == |value| || '@' in value[at + 1..] then None
    else Some((value[..at], value[at + 1..]))
  }

  function NormaliseEmail(raw: Option<string>): Normalised {
    if raw.None? then Err(Missing) else
    var value := Lower(Strip(raw.value));
    if value == "" then Err(Empty) else
    match SplitAddress(value)
    case None => Err(Malformed)
    case Some((local, domain)) =>
      if !GoogleHosted(domain) then Ok(local + "@" + domain) else
      var mailbox := CutAtPlus(DropDots(local));
      if mailbox == "" then Err(Malformed) else Ok(mailbox + "@" + domain)
  }

  /** The lower-cased text before the `@` of an address; empty when it is not one. */
  function LocalPart(raw: string): string {
    SplitAddress(Lower(Strip(raw))).GetOr(("", "")).0
  }

  /** The lower-cased text after the `@` of an address; empty when it is not one. */
  function DomainPart(raw: string): string {
    SplitAddress(Lower(Strip(raw))).GetOr(("", "")).1
  }

  /** What distinguishes one inbox from another at a domain: cut first, then drop the dots. */
  function Mailbox(local: string, domain: string): string {
    if GoogleHosted(domain) then DropDots(CutAtPlus(local)) else local
  }

  /** Deleting dots and cutting at the first plus commute. */
  lemma {:induction false} DotsAndCutCommute(local: string)
    ensures CutAtPlus(DropDots(local)) == DropDots(CutAtPlus(local))
  {
    if local != [] {
      var rest := local[1..];
      DotsAndCutCommute(rest);
      if local[0] == '+' {
        assert CutAtPlus(local) == [];
        assert DropDots(local)[0] == '+';
        assert CutAtPlus(DropDots(local)) == [];
      } else {
        assert CutAtPlus(local) == [local[0]] + CutAtPlus(rest);
        assert CutAtPlus(local)[1..] == CutAtPlus(rest);
        if local[0] != '.' {
          assert DropDots(local) == [local[0]] + DropDots(rest);
          assert DropDots(local)[1..] == DropDots(rest);
          assert CutAtPlus(DropDots(local)) == [local[0]] + CutAtPlus(DropDots(rest));
        }
      }
    }
  }

  /** An accepted address is its mailbox, an `@` and its domain, and neither side holds an `@`. */
  lemma AcceptedEmailShape(raw: string)
    requires NormaliseEmail(Some(raw)).Ok?
    ensures var local, domain := LocalPart(raw), DomainPart(raw);
            && NormaliseEmail(Some(raw)).value == Mailbox(local, domain) + "@" + domain
            && Mailbox(local, domain) != "" && domain != ""
            && '@' !in local && '@' !in Mailbox(local, domain) && '@' !in domain
  {
    DotsAndCutCommute(LocalPart(raw));
  }

  lemma SplitJoined(local: string, domain: string)
    requires local != "" && domain != "" && '@' !in local && '@' !in domain
    ensures SplitAddress(local + "@" + domain) == Some((local, domain))
  {
    FindAtConcat(local, '@', domain);
    var value := local + "@" + domain;
    assert value[..|local|] == local && value[|local| + 1..] == domain;
  }

  /** Two accepted addresses have one canonical form exactly when they reach the same inbox. */
  lemma SameEmailIffSameInbox(a: string, b: string)
    requires NormaliseEmail(Some(a)).Ok? && NormaliseEmail(Some(b)).Ok?
    ensures NormaliseEmail(Some(a)) == NormaliseEmail(Some(b))
            <==> DomainPart(a) == DomainPart(b)
                 && Mailbox(LocalPart(a), DomainPart(a)) == Mailbox(LocalPart(b), DomainPart(b))
  {
    AcceptedEmailShape(a);
    AcceptedEmailShape(b);
    SplitJoined(Mailbox(LocalPart(a), DomainPart(a)), DomainPart(a));
    SplitJoined(Mailbox(LocalPart(b), DomainPart(b)), DomainPart(b));
  }

  /**
   * Normalising a canonical address again returns it, except at a Google domain whose local part
   * starts, dots aside, with a blank: the blank is inside the raw text but at the edge of the result.
   */
  lemma EmailIsStableIff(raw: string)
    requires NormaliseEmail(Some(raw)).Ok?
    ensures var form := NormaliseEmail(Some(raw)).value;
            NormaliseEmail(Some(form)) == Ok(form)
            <==> !(GoogleHosted(DomainPart(raw)) && StartsBlank(DropDots(LocalPart(raw))))
  {
    var mailbox, domain := CanonicalParts(raw);
    FormIsStableIff(mailbox, domain);
  }

  lemma CanonicalParts(raw: string) returns (mailbox: string, domain: string)
    requires NormaliseEmail(Some(raw)).Ok?
    ensures NormaliseEmail(Some(raw)).value == mailbox + "@" + domain
    ensures mailbox != "" && domain != "" && '@' !in mailbox && '@' !in domain
    ensures !IsSpace(domain[|domain| - 1])
    ensures forall c :: c in mailbox + "@" + domain ==> LowerChar(c) == c
    ensures GoogleHosted(domain) ==> DropDots(mailbox) == mailbox && CutAtPlus(mailbox) == mailbox
    ensures StartsBlank(mailbox) <==> GoogleHosted(DomainPart(raw)) && StartsBlank(DropDots(LocalPart(raw)))
  {
    mailbox, domain := Mailbox(LocalPart(raw), DomainPart(raw)), DomainPart(raw);
    AcceptedEmailShape(raw);
    MailboxStart(raw);
    FormIsLower(raw);
    DomainEndsVisible(raw);
    MailboxIsClean(LocalPart(raw));
  }

  lemma FormIsStableIff(mailbox: string, domain: string)
    requires mailbox != "" && domain != "" && '@' !in mailbox && '@' !in domain
    requires !IsSpace(domain[|domain| - 1])
    requires forall c :: c in mailbox + "@" + domain ==> LowerChar(c) == c
    requires GoogleHosted(domain) ==> DropDots(mailbox) == mailbox && CutAtPlus(mailbox) == mailbox
    ensures NormaliseEmail(Some(mailbox + "@" + domain)) == Ok(mailbox + "@" + domain) <==> !StartsBlank(mailbox)
  {
    if StartsBlank(mailbox) {
      var form := mailbox + "@" + domain;
      assert form[0] == mailbox[0];
      if NormaliseEmail(Some(form)).Ok? {
        NeverLonger(form);
      }
    } else {
      CleanFormIsStable(mailbox, domain);
    }
  }

  /** The form of a Google address that is already lower-case and has no margins. */
  lemma GoogleAddressForm(local: string, domain: string)
    requires local != "" && !IsSpace(local[0]) && '@' !in local && '@' !in domain
    requires GoogleHosted(domain) && forall c :: c in local + "@" + domain ==> LowerChar(c) == c
    requires CutAtPlus(DropDots(local)) != ""
    ensures NormaliseEmail(Some(local + "@" + domain)) == Ok(CutAtPlus(DropDots(local)) + "@" + domain)
  {
    var raw := local + "@" + domain;
    assert raw[0] == local[0] && raw[|raw| - 1] == domain[|domain| - 1] == 'm';
    assert Strip(raw) == raw;
    LowerIsFixed(raw);
    SplitJoined(local, domain);
  }

  lemma BlankIsStripped(blank: string, s: string)
    requires |blank| == 1 && IsSpace(blank[0])
    ensures Strip(blank + s) == Strip(s)
  {
    hide TrimRight;
    assert (blank + s)[1..] == s && TrimLeft(blank + s) == TrimLeft(s);
  }

  lemma BlankIsMargin(s: string)
    ensures NormaliseEmail(Some(" " + s)) == NormaliseEmail(Some(s))
  {
    hide Strip, Lower, SplitAddress, CutAtPlus, DropDots;
    BlankIsStripped(" ", s);
  }

  lemma DotThenBlank(dot: char, blank: char, letter: char)
    requires dot == '.' && blank == ' ' && letter == 'a'
    ensures CutAtPlus(DropDots([dot, blank, letter])) == [blank, letter]
    ensures CutAtPlus(DropDots([letter])) == [letter]
  {
    var rest := [blank, letter];
    assert [dot, blank, letter][1..] == rest;
    KeepAll(rest, c => c != '.');
    KeepAll([letter], c => c != '.');
    assert DropDots([dot, blank, letter]) == DropDots(rest) == rest;
    assert Find(rest, '+') == 2 && rest[..2] == rest;
    assert Find([letter], '+') == 1 && [letter][..1] == [letter];
  }

  lemma DomainHasNoAt()
    ensures '@' !in "gmail.com" && forall c :: c in "@gmail.com" ==> LowerChar(c) == c
  {
  }

  /** A blank behind the dots of a Google address, which a second pass takes for a margin. */
  lemma EmailChangesAgain()
    ensures NormaliseEmail(Some(". a@gmail.com")) == Ok(" a@gmail.com")
    ensures NormaliseEmail(Some(" a@gmail.com")) == Ok("a@gmail.com")
  {
    hide NormaliseEmail, CutAtPlus, DropDots;
    DotThenBlank('.', ' ', 'a');
    DomainHasNoAt();
    var raw, letter, domain := ['.', ' ', 'a'], ['a'], "gmail.com";
    assert raw + "@" + domain == ". a@gmail.com" && letter + "@" + domain == "a@gmail.com";
    assert [' ', 'a'] + "@" + domain == " " + "a@gmail.com" == " a@gmail.com";
    GoogleAddressForm(raw, domain);
    GoogleAddressForm(letter, domain);
    BlankIsMargin("a@gmail.com");
  }

  predicate StartsBlank(s: string) {
    s != "" && IsSpace(s[0])
  }

  lemma CleanFormIsStable(mailbox: string, domain: string)
    requires mailbox != "" && domain != "" && '@' !in mailbox && '@' !in domain
    requires !StartsBlank(mailbox) && !IsSpace(domain[|domain| - 1])
    requires forall c :: c in mailbox + "@" + domain ==> LowerChar(c) == c
    requires GoogleHosted(domain) ==> DropDots(mailbox) == mailbox && CutAtPlus(mailbox) == mailbox
    ensures NormaliseEmail(Some(mailbox + "@" + domain)) == Ok(mailbox + "@" + domain)
  {
    var form := mailbox + "@" + domain;
    assert form[0] == mailbox[0] && form[|form| - 1] == domain[|domain| - 1];
    assert Strip(form) == form;
    LowerIsFixed(form);
    SplitJoined(mailbox, domain);
  }

  lemma MailboxFits(local: string, domain: string)
    ensures |Mailbox(local, domain)| <= |local|
    ensures forall c :: c in Mailbox(local, domain) ==> c in local
  {
  }

  lemma StripIsShorter(s: string)
    ensures |Strip(s)| <= |s| && (StartsBlank(s) ==> |Strip(s)| < |s|)
  {
    assert |Strip(s)| <= |TrimLeft(s)| <= |s|;
  }

  /** A second pass never adds text, so it cannot restore a blank that stripping removed. */
  lemma NeverLonger(form: string)
    requires NormaliseEmail(Some(form)).Ok?
    ensures |NormaliseEmail(Some(form)).value| <= |Strip(form)| <= |form|
    ensures StartsBlank(form) ==> |Strip(form)| < |form|
  {
    StripIsShorter(form);
    AcceptedEmailShape(form);
    MailboxFits(LocalPart(form), DomainPart(form));
    assert Lower(Strip(form)) == LocalPart(form) + "@" + DomainPart(form);
  }

  lemma MailboxStart(raw: string)
    requires NormaliseEmail(Some(raw)).Ok?
    ensures var mailbox := Mailbox(LocalPart(raw), DomainPart(raw));
            StartsBlank(mailbox) <==> GoogleHosted(DomainPart(raw)) && StartsBlank(DropDots(LocalPart(raw)))
  {
    AcceptedEmailShape(raw);
    DotsAndCutCommute(LocalPart(raw));
    var value := Lower(Strip(raw));
    assert value[0] == LocalPart(raw)[0] && !IsSpace(value[0]);
  }

  lemma DomainEndsVisible(raw: string)
    requires NormaliseEmail(Some(raw)).Ok?
    ensures DomainPart(raw) != "" && !IsSpace(DomainPart(raw)[|DomainPart(raw)| - 1])
  {
    var value := Lower(Strip(raw));
    assert value == LocalPart(raw) + "@" + DomainPart(raw);
    assert DomainPart(raw)[|DomainPart(raw)| - 1] == value[|value| - 1];
    assert !IsSpace(Strip(raw)[|value| - 1]);
  }

  lemma LoweredIsLower(s: string)
    ensures forall c :: c in Lower(s) ==> LowerChar(c) == c
  {
  }

  lemma FormIsLower(raw: string)
    requires NormaliseEmail(Some(raw)).Ok?
    ensures forall c :: c in NormaliseEmail(Some(raw)).value ==> LowerChar(c) == c
  {
    AcceptedEmailShape(raw);
    var local, domain, value := LocalPart(raw), DomainPart(raw), Lower(Strip(raw));
    LoweredIsLower(Strip(raw));
    MailboxFits(local, domain);
    assert value == local + "@" + domain;
    assert forall c :: c in local || c in domain || c == '@' ==> c in value;
  }

  lemma MailboxIsClean(local: string)
    ensures var mailbox := DropDots(CutAtPlus(local));
            DropDots(mailbox) == mailbox && CutAtPlus(mailbox) == mailbox
  {
    var mailbox := DropDots(CutAtPlus(local));
    KeepAll(mailbox, c => c != '.');
    assert Find(mailbox, '+') == |mailbox|;
  }

  // --- Names ---

  const TITLES: set<string> := {"mr", "mrs", "ms", "miss", "mx", "dr", "prof", "sir", "madam"}
  const SUFFIXES: set<string> := {"jr", "sr", "ii", "iii", "iv", "esq", "phd", "md"}

  predicate IsStripToken(w: string) {
    w in TITLES || w in SUFFIXES
  }

  /** Lower-cased text with its punctuation deleted; ASCII text has no accents to strip. */
  function Bare(s: string): string {
    Keep(Lower(s), c => !IsPunctuation(c))
  }

  function NameTokens(ws: seq<string>): (r: seq<string>)
    ensures forall w :: w in r <==> w in ws && !IsStripToken(w)
  {
    if ws == [] then []
    else if IsStripToken(ws[0]) then NameTokens(ws[1..])
    else [ws[0]] + NameTokens(ws[1..])
  }

  function Glue(ws: seq<string>): string {
    if ws == [] then "" else ws[0] + Glue(ws[1..])
  }

  function NormaliseName(raw: Option<string>): Normalised {
    if raw.None? then Err(Missing) else
    var tokens := NameTokens(Words(Bare(Strip(raw.value))));
    if tokens == [] then Err(Empty) else Ok(Glue(tokens))
  }

  /** The canonical name with a rejected-as-empty name read as no text at all. */
  function NameText(raw: string): string {
    match NormaliseName(Some(raw))
    case Ok(name) => name
    case Err(_) => ""
  }

  lemma BareConcat(a: string, b: string)
    ensures Bare(a + b) == Bare(a) + Bare(b)
  {
    LowerConcat(a, b);
    KeepConcat(Lower(a), Lower(b), c => !IsPunctuation(c));
  }

  lemma BareOfBlank(s: string)
    requires forall c :: c in s ==> IsSpace(c)
    ensures Bare(s) == s
  {
    LowerIsFixed(s);
    KeepAll(s, c => !IsPunctuation(c));
  }

  /** Stripping first or not makes no difference to the words of a bare text. */
  lemma BareWordsIgnoreStrip(raw: string)
    ensures Words(Bare(Strip(raw))) == Words(Bare(raw))
  {
    var left, right := StripIsMiddle(raw);
    BareConcat(left + Strip(raw), right);
    BareConcat(left, Strip(raw));
    assert forall c :: c in left ==> c in left + right;
    assert forall c :: c in right ==> c in left + right;
    BareOfBlank(left);
    BareOfBlank(right);
    WordsIgnoreMargins(left, Bare(Strip(raw)), right);
  }

  lemma {:induction false} NameTokensConcat(a: seq<string>, b: seq<string>)
    ensures NameTokens(a + b) == NameTokens(a) + NameTokens(b)
  {
    if a == [] {
      assert a + b == b;
    } else {
      assert (a + b)[1..] == a[1..] + b;
      NameTokensConcat(a[1..], b);
    }
  }

  lemma {:induction false} GlueConcat(a: seq<string>, b: seq<string>)
    ensures Glue(a + b) == Glue(a) + Glue(b)
  {
    if a == [] {
      assert a + b == b;
    } else {
      assert (a + b)[1..] == a[1..] + b;
      GlueConcat(a[1..], b);
    }
  }

  lemma NameTextIs(raw: string)
    ensures NameText(raw) == Glue(NameTokens(Words(Bare(raw))))
  {
    BareWordsIgnoreStrip(raw);
  }

  lemma BareOfTwo(x: string, y: string)
    ensures Bare(x + " " + y) == Bare(x) + [' '] + Bare(y)
  {
    BareConcat(x + " ", y);
    BareConcat(x, " ");
    BareOfBlank(" ");
  }

  /** Two names side by side normalise to the two results side by side. */
  lemma NamesConcatenate(x: string, y: string)
    ensures NameText(x + " " + y) == NameText(x) + NameText(y)
  {
    NameTextIs(x + " " + y);
    NameTextIs(x);
    NameTextIs(y);
    BareOfTwo(x, y);
    var a, b := Words(Bare(x)), Words(Bare(y));
    WordsOfTwoParts(Bare(x), ' ', Bare(y));
    NameTokensConcat(a, b);
    GlueConcat(NameTokens(a), NameTokens(b));
  }

  /** The characters a bare text can hold. */
  predicate IsBare(s: string) {
    forall c :: c in s ==> LowerChar(c) == c && !IsPunctuation(c)
  }

  lemma BareIsFixed(s: string)
    requires IsBare(s)
    ensures Bare(s) == s
  {
    LowerIsFixed(s);
    KeepAll(s, c => !IsPunctuation(c));
  }

  lemma BareIsBare(s: string)
    ensures IsBare(Bare(s))
  {
  }

  lemma {:induction false} WordsAreParts(s: string)
    ensures forall w, c :: w in Words(s) && c in w ==> c in s
  {
    if s == [] {
    } else if IsSpace(s[0]) {
      WordsAreParts(s[1..]);
    } else {
      WordsAreParts(s[WordEnd(s)..]);
    }
  }

  lemma {:induction false} GlueIsWord(ws: seq<string>)
    requires ws != [] && forall w :: w in ws ==> IsWord(w) && IsBare(w)
    ensures IsWord(Glue(ws)) && IsBare(Glue(ws))
  {
    assert ws[0] in ws;
    if |ws| > 1 {
      GlueIsWord(ws[1..]);
    }
  }

  lemma NameOfOneWord(form: string)
    requires IsWord(form) && IsBare(form)
    ensures NormaliseName(Some(form)) == if IsStripToken(form) then Err(Empty) else Ok(form)
  {
    BareWordsIgnoreStrip(form);
    BareIsFixed(form);
    OneWord(form);
    assert NameTokens([form]) == if IsStripToken(form) then [] else [form];
    assert Glue([form]) == form;
  }

  /**
   * The form of a name is what the words of its bare text spell, titles and suffixes aside; a second pass
   * returns it, except exactly when these words together spell a title or a suffix: then it rejects it.
   */
  lemma NameIsStableIff(raw: string)
    requires NormaliseName(Some(raw)).Ok?
    ensures var spelled := Glue(NameTokens(Words(Bare(raw))));
            && NormaliseName(Some(raw)) == Ok(spelled)
            && (NormaliseName(Some(spelled)) == Ok(spelled) <==> !IsStripToken(spelled))
            && (IsStripToken(spelled) ==> NormaliseName(Some(spelled)) == Err(Empty))
  {
    BareWordsIgnoreStrip(raw);
    var bare := Bare(Strip(raw));
    WordsAreParts(bare);
    var tokens := NameTokens(Words(bare));
    assert forall w :: w in tokens ==> IsWord(w) && IsBare(w) by {
      BareIsBare(Strip(raw));
    }
    GlueIsWord(tokens);
    NameOfOneWord(Glue(tokens));
  }

  lemma LettersAreWords(x: string, y: string)
    requires x == "d" && y == "r"
    ensures IsWord(x) && IsWord(y) && IsWord(x + y) && IsBare(x) && IsBare(y) && IsBare(x + y)
    ensures !IsStripToken(x) && !IsStripToken(y) && IsStripToken(x + y)
  {
    assert |x| == 1 && |y| == 1 && forall w :: w in TITLES + SUFFIXES ==> |w| >= 2;
    assert x + y == "dr";
  }

  lemma NoNameNoText(raw: string)
    ensures NameText(raw) != "" ==> NormaliseName(Some(raw)) == Ok(NameText(raw))
  {
  }

  /** Two initials of which the second pass makes a title, and nothing. */
  lemma NameDisappears()
    ensures NormaliseName(Some("d r")) == Ok("dr") && NormaliseName(Some("dr")) == Err(Empty)
  {
    hide NormaliseName, IsWord, IsBare, IsStripToken;
    LettersAreWords("d", "r");
    assert "d" + " " + "r" == "d r" && "d" + "r" == "dr";
    NamesConcatenate("d", "r");
    NameOfOneWord("d");
    NameOfOneWord("r");
    NameOfOneWord("dr");
    assert NameText("d r") == "dr";
    NoNameNoText("d r");
  }

  // --- Addresses ---

  function NormaliseStreet(raw: Option<string>): Normalised {
    if raw.None? then Err(Missing) else
    var tokens := Words(Bare(Strip(raw.value)));
    if tokens == [] then Err(Empty) else Ok(Join(" ", tokens))
  }

  /** City and region: lower case, blanks collapsed. */
  function LowercaseCollapsed(raw: Option<string>): Normalised {
    if raw.None? then Err(Missing) else
    var value := Join(" ", Words(Lower(Strip(raw.value))));
    if value == "" then Err(Empty) else Ok(value)
  }

  function NormalisePostalCode(raw: Option<string>): Normalised {
    if raw.None? then Err(Missing) else
    var value := Strip(raw.value);
    if value == "" then Err(Empty) else Ok(value)
  }

  function NormaliseCountry(raw: Option<string>): Normalised {
    if raw.None? then Err(Missing) else
    var value := Upper(Strip(raw.value));
    if value == "" then Err(Empty)
    else if |value| != 2 || !(IsLetter(value[0]) && IsLetter(value[1])) then Err(NotAlpha2)
    else Ok(value)
  }

  lemma {:induction false} JoinIsBare(ws: seq<string>)
    requires forall w :: w in ws ==> IsBare(w)
    ensures IsBare(Join(" ", ws))
  {
    if ws != [] {
      assert ws[0] in ws;
      JoinIsBare(ws[1..]);
    }
  }

  /** A canonical street is its own canonical form. */
  lemma StreetIsStable(raw: string)
    requires NormaliseStreet(Some(raw)).Ok?
    ensures NormaliseStreet(Some(NormaliseStreet(Some(raw)).value)) == NormaliseStreet(Some(raw))
  {
    var bare := Bare(Strip(raw));
    BareIsBare(Strip(raw));
    WordsAreParts(bare);
    var form := Join(" ", Words(bare));
    JoinIsBare(Words(bare));
    BareWordsIgnoreStrip(form);
    BareIsFixed(form);
    WordsOfJoined(Words(bare));
  }
}

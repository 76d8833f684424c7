/** String operations over ASCII text, with the meaning of the Python methods of the same purpose. */
module Text {

  /** The ASCII characters that `str.strip()` and `str.split()` treat as blank. */
  predicate IsSpace(c: char) {
    c == ' ' || '\t' <= c <= '\r' || '\U{1C}' <= c <= '\U{1F}'
  }

  predicate IsLetter(c: char) {
    'a' <= c <= 'z' || 'A' <= c <= 'Z'
  }

  predicate IsDigit(c: char) {
    '0' <= c <= '9'
  }

  /** ASCII characters whose Unicode category starts with P; `$ + < = > ^ ` | ~` are symbols. */
  predicate IsPunctuation(c: char) {
    c in "!\"#%&'()*,-./:;?@[\\]_{}"
  }

  function LowerChar(c: char): char {
    if 'A' <= c <= 'Z' then c + ' ' else c
  }

  function UpperChar(c: char): char {
    if 'a' <= c <= 'z' then c - ' ' else c
  }

  function Lower(s: string): (r: string)
    ensures |r| == |s|
    ensures forall i :: 0 <= i < |s| ==> r[i] == LowerChar(s[i])
  {
    seq(|s|, i requires 0 <= i < |s| => LowerChar(s[i]))
  }

  function Upper(s: string): (r: string)
    ensures |r| == |s|
    ensures forall i :: 0 <= i < |s| ==> r[i] == UpperChar(s[i])
  {
    seq(|s|, i requires 0 <= i < |s| => UpperChar(s[i]))
  }

  function TrimLeft(s: string): (r: string)
    ensures r == [] || !IsSpace(r[0])
    ensures |r| <= |s| && r == s[|s| - |r|..]
    ensures forall i :: 0 <= i < |s| - |r| ==> IsSpace(s[i])
  {
    if s == [] || !IsSpace(s[0]) then s else TrimLeft(s[1..])
  }

  function TrimRight(s: string): (r: string)
    ensures r == [] || !IsSpace(r[|r| - 1])
    ensures |r| <= |s| && r == s[..|r|]
    ensures forall i :: |r| <= i < |s| ==> IsSpace(s[i])
  {
    if s == [] || !IsSpace(s[|s| - 1]) then s else TrimRight(s[..|s| - 1])
  }

  function Strip(s: string): (r: string)
    ensures r == [] || (!IsSpace(r[0]) && !IsSpace(r[|r| - 1]))
  {
    TrimRight(TrimLeft(s))
  }

  /** Every character for which `keep` holds, in order. */
  function Keep(s: string, keep: char -> bool): (r: string)
    ensures |r| <= |s|
    ensures forall c :: c in r <==> c in s && keep(c)
  {
    if s == [] then []
    else if keep(s[0]) then [s[0]] + Keep(s[1..], keep)
    else Keep(s[1..], keep)
  }

  /** Index of the first `c`, or the length when there is none. */
  function Find(s: string, c: char): (i: nat)
    ensures i <= |s|
    ensures c !in s[..i]
    ensures i < |s| ==> s[i] == c
  {
    if s == [] || s[0] == c then 0 else 1 + Find(s[1..], c)
  }

  /** Length of the longest blank-free prefix. */
  function WordEnd(s: string): (n: nat)
    ensures n <= |s|
    ensures forall i :: 0 <= i < n ==> !IsSpace(s[i])
    ensures n < |s| ==> IsSpace(s[n])
  {
    if s == [] || IsSpace(s[0]) then 0 else 1 + WordEnd(s[1..])
  }

  predicate IsWord(w: string) {
    w != [] && forall c :: c in w ==> !IsSpace(c)
  }

  /** `s.split()`: the maximal blank-free runs. */
  function Words(s: string): (ws: seq<string>)
    ensures forall w :: w in ws ==> IsWord(w)
  {
    if s == [] then []
    else if IsSpace(s[0]) then Words(s[1..])
    else [s[..WordEnd(s)]] + Words(s[WordEnd(s)..])
  }

  function Join(separator: string, ws: seq<string>): string {
    if ws == [] then []
    else if |ws| == 1 then ws[0]
    else ws[0] + separator + Join(separator, ws[1..])
  }

  function Decimal(n: nat): (s: string)
    ensures s != []
  {
    if n < 10 then [('0' as int + n) as char] else Decimal(n / 10) + [('0' as int + n % 10) as char]
  }

  // --- Splitting ---

  lemma {:induction false} WordsOfTwoParts(a: string, blank: char, b: string)
    requires IsSpace(blank)
    ensures Words(a + [blank] + b) == Words(a) + Words(b)
    decreases |a|
  {
    var s := a + [blank] + b;
    if a == [] {
      assert s[1..] == b;
    } else if IsSpace(a[0]) {
      assert s[1..] == a[1..] + [blank] + b;
      WordsOfTwoParts(a[1..], blank, b);
    } else {
      var n := WordEnd(a);
      assert WordEnd(s) == n by { WordEndIs(s, n); }
      assert s[..n] == a[..n] && s[n..] == a[n..] + [blank] + b;
      WordsOfTwoParts(a[n..], blank, b);
    }
  }

  lemma WordEndIs(s: string, n: nat)
    requires n < |s| && IsSpace(s[n]) && forall i :: 0 <= i < n ==> !IsSpace(s[i])
    ensures WordEnd(s) == n
  {
    if WordEnd(s) < n {
      assert IsSpace(s[WordEnd(s)]);
    }
  }

  lemma {:induction false} WordsOfBlank(s: string)
    requires forall c :: c in s ==> IsSpace(c)
    ensures Words(s) == []
  {
    if s != [] {
      assert s[0] in s;
      WordsOfBlank(s[1..]);
    }
  }

  /** Blanks around the text do not change how it splits. */
  lemma WordsIgnoreMargins(left: string, s: string, right: string)
    requires forall c :: c in left + right ==> IsSpace(c)
    ensures Words(left + s + right) == Words(s)
    decreases |left|
  {
    if left != [] {
      assert (left + s + right)[1..] == left[1..] + s + right;
      assert left[0] in left + right;
      WordsIgnoreMargins(left[1..], s, right);
    } else if right != [] {
      assert right[0] in left + right;
      assert left + s + right == s + [right[0]] + right[1..];
      WordsOfTwoParts(s, right[0], right[1..]);
      WordsOfBlank(right[1..]);
    } else {
      assert left + s + right == s;
    }
  }

  lemma BlankIfEachIs(left: string, right: string)
    requires forall i :: 0 <= i < |left| ==> IsSpace(left[i])
    requires forall i :: 0 <= i < |right| ==> IsSpace(right[i])
    ensures forall c :: c in left + right ==> IsSpace(c)
  {
  }

  lemma TrimmedLeft(s: string) returns (left: string)
    ensures s == left + TrimLeft(s) && forall i :: 0 <= i < |left| ==> IsSpace(left[i])
  {
    hide TrimLeft;
    var k := |s| - |TrimLeft(s)|;
    left := s[..k];
    assert s == left + s[k..];
  }

  lemma TrimmedRight(s: string) returns (right: string)
    ensures s == TrimRight(s) + right && forall i :: 0 <= i < |right| ==> IsSpace(right[i])
  {
    hide TrimRight;
    var k := |TrimRight(s)|;
    right := s[k..];
    assert s == s[..k] + right;
  }

  lemma StripIsMiddle(s: string) returns (left: string, right: string)
    ensures s == left + Strip(s) + right
    ensures forall c :: c in left + right ==> IsSpace(c)
  {
    hide TrimLeft, TrimRight, IsSpace;
    left := TrimmedLeft(s);
    right := TrimmedRight(TrimLeft(s));
    assert s == left + (Strip(s) + right);
    BlankIfEachIs(left, right);
  }

  lemma {:induction false} WordsOfJoined(ws: seq<string>)
    requires forall w :: w in ws ==> IsWord(w)
    ensures Words(Join(" ", ws)) == ws
  {
    if ws == [] {
    } else if |ws| == 1 {
      OneWord(ws[0]);
    } else {
      OneWord(ws[0]);
      assert Join(" ", ws) == ws[0] + [' '] + Join(" ", ws[1..]);
      WordsOfTwoParts(ws[0], ' ', Join(" ", ws[1..]));
      WordsOfJoined(ws[1..]);
    }
  }

  lemma OneWord(w: string)
    requires IsWord(w)
    ensures Words(w) == [w]
  {
    assert forall i :: 0 <= i < |w| ==> w[i] in w;
    assert w[..|w|] == w && w[|w|..] == [];
  }

  // --- Filtering ---

  lemma {:induction false} KeepConcat(a: string, b: string, keep: char -> bool)
    ensures Keep(a + b, keep) == Keep(a, keep) + Keep(b, keep)
  {
    if a == [] {
      assert a + b == b;
    } else {
      assert (a + b)[1..] == a[1..] + b;
      KeepConcat(a[1..], b, keep);
    }
  }

  lemma {:induction false} KeepAll(s: string, keep: char -> bool)
    requires forall c :: c in s ==> keep(c)
    ensures Keep(s, keep) == s
  {
    if s != [] {
      assert s[0] in s;
      KeepAll(s[1..], keep);
    }
  }

  lemma LowerConcat(a: string, b: string)
    ensures Lower(a + b) == Lower(a) + Lower(b)
  {
  }

  lemma LowerIsFixed(s: string)
    requires forall c :: c in s ==> LowerChar(c) == c
    ensures Lower(s) == s
  {
    assert forall i :: 0 <= i < |s| ==> s[i] in s;
  }

  lemma FindAtConcat(a: string, c: char, b: string)
    requires c !in a
    ensures Find(a + [c] + b, c) == |a|
  {
    var s := a + [c] + b;
    var i := Find(s, c);
    assert s[|a|] == c && forall k :: 0 <= k < |a| ==> s[k] == a[k];
    assert forall k :: 0 <= k < i ==> s[k] in s[..i];
  }
}

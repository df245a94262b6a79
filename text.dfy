/**
 * The Python string operations the engine's input rules rely on, restricted to ASCII:
 * `str.isspace`, `str.isalpha`, `str.upper`, `str.lower`, `str.strip`, `str.split()`,
 * `str.capitalize`, `' '.join` and `int()` on a decimal string.
 */
module Text {
  import opened Wrappers

  /** `c.isspace()` for an ASCII character: tab, line feed, vertical tab, form feed,
      carriage return, the four separators 0x1C-0x1F and the space. */
  predicate IsSpace(c: char) {
    9 <= c as int <= 13 || 28 <= c as int <= 32
  }

  predicate IsAsciiLetter(c: char) {
    'A' <= c <= 'Z' || 'a' <= c <= 'z'
  }

  /** `s.isalpha()`: non-empty and letters only. */
  predicate IsAlpha(s: string) {
    |s| > 0 && forall i :: 0 <= i < |s| ==> IsAsciiLetter(s[i])
  }

  function UpperChar(c: char): char {
    if 'a' <= c <= 'z' then (c as int - 32) as char else c
  }

  function LowerChar(c: char): char {
    if 'A' <= c <= 'Z' then (c as int + 32) as char else c
  }

  function Upper(s: string): (r: string)
    ensures |r| == |s|
  {
    seq(|s|, i requires 0 <= i < |s| => UpperChar(s[i]))
  }

  function Lower(s: string): (r: string)
    ensures |r| == |s|
  {
    seq(|s|, i requires 0 <= i < |s| => LowerChar(s[i]))
  }

  function StripLeft(s: string): (r: string)
    ensures |r| <= |s|
    ensures r == [] || !IsSpace(r[0])
  {
    if s != [] && IsSpace(s[0]) then StripLeft(s[1..]) else s
  }

  function StripRight(s: string): (r: string)
    ensures |r| <= |s|
    ensures r == [] || !IsSpace(r[|r| - 1])
  {
    if s != [] && IsSpace(s[|s| - 1]) then StripRight(s[..|s| - 1]) else s
  }

  /** `s.strip()`: what is left starts and ends with a non-space. */
  function Strip(s: string): (r: string)
    ensures |r| <= |s|
    ensures r == [] || (!IsSpace(r[0]) && !IsSpace(r[|r| - 1]))
  {
    var l := StripLeft(s);
    StripRightPrefix(l);
    StripRight(l)
  }

  /** Stripping on the left drops leading whitespace only: what is left is a suffix. */
  lemma {:induction false} StripLeftIsSuffix(s: string)
    ensures var r := StripLeft(s);
      r == s[|s| - |r|..] && forall k :: 0 <= k < |s| - |r| ==> IsSpace(s[k])
    decreases |s|
  {
    if s != [] && IsSpace(s[0]) {
      StripLeftIsSuffix(s[1..]);
      var r := StripLeft(s[1..]);
      assert s[1..][|s| - 1 - |r|..] == s[|s| - |r|..];
      assert forall k :: 1 <= k < |s| - |r| ==> s[k] == s[1..][k - 1];
    }
  }

  /** Stripping on the right drops trailing whitespace only: what is left is a prefix. */
  lemma {:induction false} StripRightIsPrefix(s: string)
    ensures var r := StripRight(s);
      r == s[..|r|] && forall k :: |r| <= k < |s| ==> IsSpace(s[k])
    decreases |s|
  {
    if s != [] && IsSpace(s[|s| - 1]) {
      var t := s[..|s| - 1];
      StripRightIsPrefix(t);
      var r := StripRight(t);
      assert t[..|r|] == s[..|r|];
      assert forall k :: |r| <= k < |s| - 1 ==> s[k] == t[k];
    }
  }

  /** `r` is `s` from position `a` on, with only whitespace before and after it. */
  predicate TrimAt(s: string, r: string, a: int) {
    && 0 <= a && a + |r| <= |s| && r == s[a..a + |r|]
    && (forall k :: 0 <= k < a ==> IsSpace(s[k]))
    && (forall k :: a + |r| <= k < |s| ==> IsSpace(s[k]))
  }

  /** `s.strip()` keeps a contiguous middle part of `s` and drops only whitespace on
      either side of it. */
  lemma StripIsTrim(s: string)
    ensures exists a :: TrimAt(s, Strip(s), a)
  {
    var l := StripLeft(s);
    var r := Strip(s);
    var a := |s| - |l|;
    StripLeftIsSuffix(s);
    StripRightIsPrefix(l);
    assert r == StripRight(l);
    assert l[..|r|] == s[a..a + |r|];
    assert forall k :: a + |r| <= k < |s| ==> s[k] == l[k - a];
    assert TrimAt(s, r, a);
  }

  /** The longest prefix of `s` that holds no whitespace. */
  function TakeWord(s: string): (w: string)
    ensures |w| <= |s| && w == s[..|w|]
    ensures s != [] && !IsSpace(s[0]) ==> |w| > 0
    ensures NoSpace(w)
  {
    if s == [] || IsSpace(s[0]) then [] else [s[0]] + TakeWord(s[1..])
  }

  /** `s.split()` with no separator: every word it returns is non-empty and holds no
      whitespace. */
  function Words(s: string): (ws: seq<string>)
    ensures forall k :: 0 <= k < |ws| ==> ws[k] != [] && NoSpace(ws[k])
    decreases |s|
  {
    var t := StripLeft(s);
    if t == [] then [] else
      var w := TakeWord(t);
      var rest := Words(t[|w|..]);
      assert forall k :: 1 <= k < 1 + |rest| ==> ([w] + rest)[k] == rest[k - 1];
      [w] + rest
  }

  predicate NoSpace(s: string) {
    forall i :: 0 <= i < |s| ==> !IsSpace(s[i])
  }

  lemma {:induction false} TakeWordWhole(s: string)
    requires NoSpace(s)
    ensures TakeWord(s) == s
  {
    if s != [] {
      TakeWordWhole(s[1..]);
    }
  }

  /** A non-empty string without whitespace splits into itself alone. */
  lemma WordsOfOneWord(s: string)
    requires s != [] && NoSpace(s)
    ensures Words(s) == [s]
  {
    TakeWordWhole(s);
    assert s[|s|..] == [];
  }

  /** `w.capitalize()`: the first character upper-cased and the rest lower-cased; only
      the case of letters changes. */
  function Capitalize(w: string): (r: string)
    ensures |r| == |w|
    ensures forall i :: 0 <= i < |w| ==> UpperChar(r[i]) == UpperChar(w[i])
  {
    if w == [] then []
    else
      var r := [UpperChar(w[0])] + Lower(w[1..]);
      assert forall i :: 1 <= i < |w| ==> r[i] == LowerChar(w[i]);
      r
  }

  function CapitalizeAll(ws: seq<string>): (r: seq<string>)
    ensures |r| == |ws|
  {
    if ws == [] then [] else [Capitalize(ws[0])] + CapitalizeAll(ws[1..])
  }

  /** `' '.join(ws)`. */
  function JoinWords(ws: seq<string>): string {
    if ws == [] then []
    else if |ws| == 1 then ws[0]
    else ws[0] + " " + JoinWords(ws[1..])
  }

  predicate IsDigit(c: char) {
    '0' <= c <= '9'
  }

  function DigitValue(c: char): (d: nat)
    requires IsDigit(c)
    ensures d < 10
  {
    c as int - '0' as int
  }

  function DigitChar(d: nat): (c: char)
    requires d < 10
    ensures IsDigit(c) && DigitValue(c) == d
  {
    ('0' as int + d) as char
  }

  /** The digits of a decimal literal as `int()` accepts them: digits, with single
      underscores allowed between two digits. */
  predicate IsDigitGroup(s: string) {
    && |s| > 0
    && IsDigit(s[0])
    && IsDigit(s[|s| - 1])
    && (forall i :: 0 <= i < |s| ==> IsDigit(s[i]) || s[i] == '_')
    && (forall i, j :: 0 <= i < |s| && j == i + 1 < |s| ==> s[i] != '_' || s[j] != '_')
  }

  function RemoveUnderscores(s: string): (r: string)
    ensures |r| <= |s|
  {
    if s == [] then []
    else if s[0] == '_' then RemoveUnderscores(s[1..])
    else [s[0]] + RemoveUnderscores(s[1..])
  }

  /** The value of a string of decimal digits, most significant first. */
  function DigitsValue(s: string): nat
    requires forall i :: 0 <= i < |s| ==> IsDigit(s[i])
  {
    if s == [] then 0 else 10 * DigitsValue(s[..|s| - 1]) + DigitValue(s[|s| - 1])
  }

  lemma RemoveUnderscoresDigits(s: string)
    requires forall i :: 0 <= i < |s| ==> IsDigit(s[i]) || s[i] == '_'
    ensures forall i :: 0 <= i < |RemoveUnderscores(s)| ==> IsDigit(RemoveUnderscores(s)[i])
  {
    if s != [] {
      RemoveUnderscoresDigits(s[1..]);
    }
  }

  function ParseDigits(s: string): Option<nat> {
    if IsDigitGroup(s) then
      RemoveUnderscoresDigits(s);
      Some(DigitsValue(RemoveUnderscores(s)))
    else None
  }

  /** `int(s)` for base 10: surrounding whitespace, an optional sign, then a digit group;
      `None` where Python raises `ValueError`. */
  function ParseInt(s: string): (r: Option<int>)
    ensures r.Some? ==> var t := Strip(s);
      && t != [] && (IsDigit(t[0]) || t[0] == '+' || t[0] == '-') && IsDigit(t[|t| - 1])
    ensures r.Some? && r.value < 0 ==> Strip(s)[0] == '-'
  {
    ParseSigned(Strip(s))
  }

  /** `int(t)` for a string without surrounding whitespace. */
  function ParseSigned(t: string): Option<int> {
    if t != [] && (t[0] == '+' || t[0] == '-') then
      match ParseDigits(t[1..])
      case None => None
      case Some(n) =>
        var m: int := n;
        Some(if t[0] == '-' then -m else m)
    else
      match ParseDigits(t)
      case None => None
      case Some(n) => Some(n)
  }

  /** `str(n)` for a natural number. */
  function DecimalString(n: nat): (s: string)
    ensures |s| > 0
    ensures forall i :: 0 <= i < |s| ==> IsDigit(s[i])
  {
    if n < 10 then [DigitChar(n)] else DecimalString(n / 10) + [DigitChar(n % 10)]
  }

  // Facts about the helpers above, used by the input rules.

  lemma UpperIdempotent(s: string)
    ensures Upper(Upper(s)) == Upper(s)
  {
  }

  /** Upper-casing neither creates nor removes whitespace. */
  lemma UpperKeepsSpaces(s: string)
    ensures NoSpace(Upper(s)) <==> NoSpace(s)
  {
    assert forall i :: 0 <= i < |s| ==> (IsSpace(Upper(s)[i]) <==> IsSpace(s[i]));
  }

  /** Two strings that agree once upper-cased agree once lower-cased. */
  lemma LowerOfSameUpper(s: string, t: string)
    requires Upper(s) == Upper(t)
    ensures Lower(s) == Lower(t)
  {
    forall i | 0 <= i < |s|
      ensures Lower(s)[i] == Lower(t)[i]
    {
      assert UpperChar(s[i]) == Upper(s)[i];
      assert UpperChar(t[i]) == Upper(t)[i];
    }
  }

  lemma CapitalizeOfSameUpper(s: string, t: string)
    requires Upper(s) == Upper(t)
    ensures Capitalize(s) == Capitalize(t)
  {
    if s != [] {
      assert Upper(s[1..]) == Upper(s)[1..] && Upper(t[1..]) == Upper(t)[1..];
      LowerOfSameUpper(s[1..], t[1..]);
      assert UpperChar(s[0]) == Upper(s)[0] && UpperChar(t[0]) == Upper(t)[0];
    }
  }

  lemma UpperOfCapitalize(w: string)
    ensures Upper(Capitalize(w)) == Upper(w)
  {
    if w != [] {
      var c := Capitalize(w);
      assert c[1..] == Lower(w[1..]);
      forall i | 0 <= i < |w|
        ensures Upper(c)[i] == Upper(w)[i]
      {
        if i > 0 {
          assert c[i] == Lower(w[1..])[i - 1] == LowerChar(w[i]);
        }
      }
    }
  }

  lemma {:induction false} StripRightPrefix(s: string)
    ensures StripRight(s) == s[..|StripRight(s)|]
  {
    if s != [] && IsSpace(s[|s| - 1]) {
      StripRightPrefix(s[..|s| - 1]);
      assert s[..|s| - 1][..|StripRight(s)|] == s[..|StripRight(s)|];
    }
  }

  /** A string that starts with a non-space is its own left strip. */
  lemma StripLeftKeeps(s: string)
    requires s == [] || !IsSpace(s[0])
    ensures StripLeft(s) == s
  {
  }

  /** A string that ends with a non-space has something left after stripping on the left. */
  lemma {:induction false} StripLeftNonEmpty(s: string)
    requires s != [] && !IsSpace(s[|s| - 1])
    ensures StripLeft(s) != []
  {
    if IsSpace(s[0]) {
      StripLeftNonEmpty(s[1..]);
    }
  }

  /** A stripped string that splits into one word is that word. */
  lemma OneWordIsWhole(x: string)
    requires |Words(Strip(x))| == 1
    ensures Words(Strip(x)) == [Strip(x)]
  {
    var s := Strip(x);
    StripLeftKeeps(s);
    var w := TakeWord(s);
    if |w| < |s| {
      StripLeftNonEmpty(s[|w|..]);
    } else {
      assert w == s && s[|w|..] == [];
    }
  }

  /** Joining two or more words puts a space between them. */
  lemma JoinedWordsHaveSpace(ws: seq<string>)
    requires |ws| >= 2
    ensures ' ' in JoinWords(ws)
  {
    assert JoinWords(ws)[|ws[0]|] == ' ';
  }

  lemma {:induction false} RemoveUnderscoresNone(s: string)
    requires forall i :: 0 <= i < |s| ==> IsDigit(s[i])
    ensures RemoveUnderscores(s) == s
  {
    if s != [] {
      RemoveUnderscoresNone(s[1..]);
    }
  }

  lemma {:induction false} DigitsOfDecimal(n: nat)
    ensures DigitsValue(DecimalString(n)) == n
  {
    if n >= 10 {
      DigitsOfDecimal(n / 10);
      var d := DecimalString(n);
      assert d[..|d| - 1] == DecimalString(n / 10);
    }
  }

  lemma StripNoSpace(s: string)
    requires NoSpace(s)
    ensures Strip(s) == s
  {
    StripLeftKeeps(s);
  }

  lemma ParseAllDigits(d: string)
    requires d != [] && forall i :: 0 <= i < |d| ==> IsDigit(d[i])
    ensures ParseDigits(d) == Some(DigitsValue(d))
  {
    RemoveUnderscoresNone(d);
    assert IsDigitGroup(d);
  }

  /** `int(d)` for a string of decimal digits is their value. */
  lemma ParseNoSpace(t: string)
    requires NoSpace(t)
    ensures ParseInt(t) == ParseSigned(t)
  {
    StripNoSpace(t);
  }

  lemma ParseDigitString(d: string)
    requires d != [] && forall i :: 0 <= i < |d| ==> IsDigit(d[i])
    ensures ParseInt(d) == Some(DigitsValue(d))
  {
    ParseNoSpace(d);
    ParseAllDigits(d);
  }

  /** `int(str(n)) == n`. */
  lemma ParseDecimal(n: nat)
    ensures ParseInt(DecimalString(n)) == Some(n)
  {
    DigitsOfDecimal(n);
    ParseDigitString(DecimalString(n));
  }

  /** `int(t)` for a minus sign followed by decimal digits is minus their value. */
  lemma ParseMinusDigitString(t: string)
    requires |t| >= 2 && t[0] == '-' && forall i :: 1 <= i < |t| ==> IsDigit(t[i])
    ensures ParseInt(t) == Some(-(DigitsValue(t[1..]) as int))
  {
    ParseNoSpace(t);
    ParseAllDigits(t[1..]);
  }
}

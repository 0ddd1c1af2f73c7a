/** Python `str` operations that the extraction pipeline relies on, over `string` (= `seq<char>`).
    Case mapping covers ASCII, Latin-1 and the basic Cyrillic block; see README "Left out". */
module Text {

  // ---------------------------------------------------------------- characters

  /** The characters for which Python's `str.isspace()` holds. */
  predicate IsSpace(c: char) {
    c == ' ' || '\t' <= c <= '\r' || '\U{1C}' <= c <= '\U{1F}' || c == '\U{85}' || c == '\U{A0}'
    || c == '\U{1680}' || '\U{2000}' <= c <= '\U{200A}' || c == '\U{2028}' || c == '\U{2029}'
    || c == '\U{202F}' || c == '\U{205F}' || c == '\U{3000}'
  }

  /** The line boundaries of Python's `str.splitlines()` (`\r\n` is handled in SplitLines). */
  predicate IsLineBreak(c: char) {
    '\n' <= c <= '\r' || '\U{1C}' <= c <= '\U{1E}' || c == '\U{85}' || c == '\U{2028}' || c == '\U{2029}'
  }

  predicate IsDigit(c: char) { '0' <= c <= '9' }

  predicate IsUpperChar(c: char) {
    'A' <= c <= 'Z' || ('\U{C0}' <= c <= '\U{DE}' && c != '\U{D7}') || '\U{400}' <= c <= '\U{42F}'
  }

  predicate IsLowerChar(c: char) {
    'a' <= c <= 'z' || ('\U{DF}' <= c <= '\U{FF}' && c != '\U{F7}') || c == '\U{B5}'
    || c == '\U{AA}' || c == '\U{BA}' || '\U{430}' <= c <= '\U{45F}'
  }

  /** A letter that has case (Python's `title()` starts a new word after a non-cased character).
      U+00AA and U+00BA count as lower case: they carry the Unicode property Other_Lowercase. */
  predicate IsCased(c: char) { IsUpperChar(c) || IsLowerChar(c) }

  function LowerChar(c: char): (r: char)
    ensures !IsUpperChar(r)
    ensures IsCased(r) == IsCased(c)
    ensures !IsCased(c) ==> r == c
  {
    if 'A' <= c <= 'Z' || ('\U{C0}' <= c <= '\U{DE}' && c != '\U{D7}') || '\U{410}' <= c <= '\U{42F}' then
      (c as int + 32) as char
    else if '\U{400}' <= c <= '\U{40F}' then (c as int + 80) as char
    else c
  }

  /** Upper-casing of one character; characters whose Python upper case lies outside the
      modelled blocks (or has two characters, as for U+00DF) are left unchanged. */
  function UpperChar(c: char): (r: char)
    ensures IsCased(r) == IsCased(c)
    ensures !IsCased(c) ==> r == c
  {
    if 'a' <= c <= 'z' || ('\U{E0}' <= c <= '\U{FE}' && c != '\U{F7}') || '\U{430}' <= c <= '\U{44F}' then
      (c as int - 32) as char
    else if '\U{450}' <= c <= '\U{45F}' then (c as int - 80) as char
    else c
  }

  lemma UpperCharIdempotent(c: char)
    ensures UpperChar(UpperChar(c)) == UpperChar(c)
  {}

  lemma LowerCharIdempotent(c: char)
    ensures LowerChar(LowerChar(c)) == LowerChar(c)
  {}

  // ---------------------------------------------------------------- case mapping of strings

  /** `str.lower()`. */
  function Lower(s: string): (r: string)
    ensures |r| == |s| && forall i :: 0 <= i < |s| ==> r[i] == LowerChar(s[i])
  {
    if s == [] then [] else [LowerChar(s[0])] + Lower(s[1..])
  }

  /** `str.capitalize()`: the first character upper-cased, the rest lower-cased. */
  function Capitalize(s: string): string {
    if s == [] then [] else [UpperChar(s[0])] + Lower(s[1..])
  }

  /** `str.title()`: a cased character is upper-cased when the character before it is not cased,
      lower-cased otherwise. */
  function Title(s: string): string {
    TitleAfter(s, false)
  }

  function TitleAfter(s: string, prevCased: bool): (r: string)
    ensures |r| == |s|
    ensures forall i :: 0 <= i < |s| ==> IsCased(r[i]) == IsCased(s[i])
    ensures forall i :: 0 <= i < |s| ==> IsSpace(r[i]) == IsSpace(s[i])
  {
    if s == [] then []
    else [if prevCased then LowerChar(s[0]) else UpperChar(s[0])] + TitleAfter(s[1..], IsCased(s[0]))
  }

  lemma LowerIdempotent(s: string)
    ensures Lower(Lower(s)) == Lower(s)
  {
    forall i | 0 <= i < |s| ensures Lower(Lower(s))[i] == Lower(s)[i] {
      LowerCharIdempotent(s[i]);
    }
  }

  lemma {:induction false} CapitalizeIdempotent(s: string)
    ensures Capitalize(Capitalize(s)) == Capitalize(s)
  {
    if s != [] {
      UpperCharIdempotent(s[0]);
      LowerIdempotent(s[1..]);
      assert Capitalize(s)[1..] == Lower(s[1..]);
    }
  }

  lemma {:induction false} TitleAfterIdempotent(s: string, prev: bool)
    ensures TitleAfter(TitleAfter(s, prev), prev) == TitleAfter(s, prev)
  {
    if s != [] {
      var t := TitleAfter(s, prev);
      assert t[0] == if prev then LowerChar(s[0]) else UpperChar(s[0]);
      assert IsCased(t[0]) == IsCased(s[0]);
      assert t[1..] == TitleAfter(s[1..], IsCased(s[0]));
      UpperCharIdempotent(s[0]);
      LowerCharIdempotent(s[0]);
      TitleAfterIdempotent(s[1..], IsCased(s[0]));
    }
  }

  lemma TitleIdempotent(s: string)
    ensures Title(Title(s)) == Title(s)
  {
    TitleAfterIdempotent(s, false);
  }

  /** After a cased character, `title()` lower-cases a run of cased letters: no new word starts. */
  lemma {:induction false} TitleAfterCasedRun(s: string)
    requires forall i :: 0 <= i < |s| ==> IsCased(s[i])
    ensures TitleAfter(s, true) == Lower(s)
  {
    if s != [] {
      TitleAfterCasedRun(s[1..]);
    }
  }

  /** A word opened by an ordinal indicator (U+00AA or U+00BA) keeps it and lower-cases the
      rest, as Python's "ªB".title() gives "ªb": the indicator is a cased letter. */
  lemma TitleOrdinalWord(c: char, w: string)
    requires c == '\U{AA}' || c == '\U{BA}'
    requires forall i :: 0 <= i < |w| ==> IsCased(w[i])
    ensures Title([c] + w) == [c] + Lower(w)
  {
    var s := [c] + w;
    assert s[0] == c && s[1..] == w;
    assert UpperChar(c) == c && IsCased(c);
    TitleAfterCasedRun(w);
    assert TitleAfter(s, false) == [UpperChar(s[0])] + TitleAfter(s[1..], IsCased(s[0]));
  }

  /** `capitalize()` maps a word to a word of the same length. */
  lemma CapitalizeWord(w: string)
    requires Word(w)
    ensures Word(Capitalize(w)) && |Capitalize(w)| == |w|
  {
    var c := Capitalize(w);
    CaseKeepsSpaces(w[0]);
    forall i | 0 <= i < |w| ensures !IsSpace(c[i]) {
      CaseKeepsSpaces(w[i]);
      if i > 0 {
        assert c[i] == Lower(w[1..])[i - 1];
      }
    }
  }

  /** Case mapping never turns a non-space into a space (nor the reverse). */
  lemma CaseKeepsSpaces(c: char)
    ensures IsSpace(UpperChar(c)) == IsSpace(c) && IsSpace(LowerChar(c)) == IsSpace(c)
  {}

  // ---------------------------------------------------------------- search

  predicate StartsWith(s: string, prefix: string) {
    |prefix| <= |s| && s[..|prefix|] == prefix
  }

  /** Python's `sub in s`. */
  predicate Contains(s: string, sub: string)
    decreases |s|
  {
    StartsWith(s, sub) || (s != [] && Contains(s[1..], sub))
  }

  /** A text that is lower-cased never contains a string holding an upper-case character. */
  lemma {:induction false} LowerAvoids(s: string, sub: string, i: nat)
    requires i < |sub| && IsUpperChar(sub[i])
    ensures !Contains(Lower(s), sub)
    decreases |s|
  {
    var t := Lower(s);
    if |sub| <= |t| {
      assert t[..|sub|][i] == LowerChar(s[i]);
    }
    if s != [] {
      assert Lower(s)[1..] == Lower(s[1..]);
      LowerAvoids(s[1..], sub, i);
    }
  }

  /** `s.find(c)`: the index of the first occurrence of `c`, or -1. */
  function FindChar(s: string, c: char): (r: int)
    ensures -1 <= r < |s|
    ensures r == -1 <==> c !in s
    ensures 0 <= r ==> s[r] == c && c !in s[..r]
  {
    if s == [] then -1
    else if s[0] == c then 0
    else var k := FindChar(s[1..], c); if k == -1 then -1 else k + 1
  }

  /** `s.split(sep)[0]`: everything before the first occurrence of `sep`, or `s` itself. */
  function PrefixBefore(s: string, sep: string): (r: string)
    requires sep != []
    ensures |r| <= |s| && r == s[..|r|]
    ensures r == s <==> !Contains(s, sep)
    ensures r != s ==> StartsWith(s[|r|..], sep)
    decreases |s|
  {
    if StartsWith(s, sep) then []
    else if s == [] then []
    else [s[0]] + PrefixBefore(s[1..], sep)
  }

  // ---------------------------------------------------------------- replacement

  /** `s.replace(target, repl)`: every non-overlapping occurrence, scanning left to right. */
  function Replace(s: string, target: string, repl: string): string
    requires target != []
    decreases |s|
  {
    if |s| < |target| then s
    else if s[..|target|] == target then repl + Replace(s[|target|..], target, repl)
    else [s[0]] + Replace(s[1..], target, repl)
  }

  /** Replacing a string by itself changes nothing. */
  lemma {:induction false} ReplaceSelf(s: string, t: string)
    requires t != []
    ensures Replace(s, t, t) == s
    decreases |s|
  {
    if |s| >= |t| {
      if s[..|t|] == t {
        ReplaceSelf(s[|t|..], t);
        assert s == t + s[|t|..];
      } else {
        ReplaceSelf(s[1..], t);
        assert s == [s[0]] + s[1..];
      }
    }
  }

  /** A character that is neither in the text nor in the replacement is not in the result. */
  lemma {:induction false} ReplaceKeepsOut(s: string, t: string, r: string, c: char)
    requires t != [] && c !in s && c !in r
    ensures c !in Replace(s, t, r)
    decreases |s|
  {
    if |s| >= |t| {
      if s[..|t|] == t {
        ReplaceKeepsOut(s[|t|..], t, r, c);
      } else {
        ReplaceKeepsOut(s[1..], t, r, c);
      }
    }
  }

  /** Replacing a single character removes every occurrence of it, unless the replacement
      brings it back. */
  lemma {:induction false} ReplaceCharRemoves(s: string, c: char, r: string)
    requires c !in r
    ensures c !in Replace(s, [c], r)
    decreases |s|
  {
    if |s| >= 1 {
      if s[..1] == [c] {
        ReplaceCharRemoves(s[1..], c, r);
      } else {
        assert s[0] != c;
        ReplaceCharRemoves(s[1..], c, r);
      }
    }
  }

  /** A single-character replacement distributes over concatenation. */
  lemma {:induction false} ReplaceCharAppend(x: string, y: string, c: char, r: string)
    ensures Replace(x + y, [c], r) == Replace(x, [c], r) + Replace(y, [c], r)
    decreases |x|
  {
    if x == [] {
      assert x + y == y;
    } else {
      assert (x + y)[1..] == x[1..] + y;
      assert (x + y)[..1] == x[..1];
      ReplaceCharAppend(x[1..], y, c, r);
    }
  }

  /** A single-character replacement leaves a text without that character unchanged. */
  lemma {:induction false} ReplaceCharAbsent(s: string, c: char, r: string)
    requires c !in s
    ensures Replace(s, [c], r) == s
    decreases |s|
  {
    if s != [] {
      assert s[..1] != [c] by { assert s[..1][0] == s[0]; }
      ReplaceCharAbsent(s[1..], c, r);
      assert s == [s[0]] + s[1..];
    }
  }

  /** A replacement whose target holds a character the text lacks changes nothing. */
  lemma {:induction false} ReplaceAbsent(s: string, t: string, r: string, i: nat)
    requires i < |t| && t[i] !in s
    ensures Replace(s, t, r) == s
    decreases |s|
  {
    if |s| >= |t| {
      assert s[..|t|] != t by { assert s[..|t|][i] == s[i]; }
      ReplaceAbsent(s[1..], t, r, i);
      assert s == [s[0]] + s[1..];
    }
  }

  // ---------------------------------------------------------------- whitespace

  function LStrip(s: string): (r: string)
    ensures |r| <= |s| && r == s[|s| - |r|..]
    ensures r == [] || !IsSpace(r[0])
    ensures forall i :: 0 <= i < |s| - |r| ==> IsSpace(s[i])
  {
    if s != [] && IsSpace(s[0]) then LStrip(s[1..]) else s
  }

  function RStrip(s: string): (r: string)
    ensures |r| <= |s| && r == s[..|r|]
    ensures r == [] || !IsSpace(r[|r| - 1])
    ensures forall i :: |r| <= i < |s| ==> IsSpace(s[i])
  {
    if s != [] && IsSpace(s[|s| - 1]) then RStrip(s[..|s| - 1]) else s
  }

  /** `str.strip()`: leading and trailing whitespace removed. */
  function Strip(s: string): (r: string)
    ensures r == [] || (!IsSpace(r[0]) && !IsSpace(r[|r| - 1]))
  {
    RStrip(LStrip(s))
  }

  /** Stripping brings in no character. */
  lemma StripKeepsOut(s: string, c: char)
    requires c !in s
    ensures c !in Strip(s)
  {
    var l := LStrip(s);
    var r := RStrip(l);
    forall i | 0 <= i < |r|
      ensures r[i] != c
    {
      assert r[i] == l[i];
      assert l[i] == s[|s| - |l| + i];
    }
  }

  /** `re.sub(r"\s+", "", s)`: every whitespace character removed, the others kept in
      order. */
  function DropSpaces(s: string): (r: string)
    ensures |r| <= |s|
    ensures forall i :: 0 <= i < |r| ==> !IsSpace(r[i])
  {
    if s == [] then []
    else if IsSpace(s[0]) then DropSpaces(s[1..])
    else [s[0]] + DropSpaces(s[1..])
  }

  /** A string without whitespace is left as it is, so removing whitespace twice is removing
      it once. */
  lemma {:induction false} DropSpacesKeeps(s: string)
    requires forall i :: 0 <= i < |s| ==> !IsSpace(s[i])
    ensures DropSpaces(s) == s
  {
    if s != [] {
      DropSpacesKeeps(s[1..]);
    }
  }

  /** A non-empty string of non-whitespace characters: one element of `str.split()`. */
  predicate Word(w: string) {
    w != [] && forall i :: 0 <= i < |w| ==> !IsSpace(w[i])
  }

  /** Length of the leading run of non-whitespace characters. */
  function WordLen(s: string): (n: nat)
    ensures n <= |s|
    ensures forall i :: 0 <= i < n ==> !IsSpace(s[i])
    ensures n < |s| ==> IsSpace(s[n])
  {
    if s == [] || IsSpace(s[0]) then 0 else 1 + WordLen(s[1..])
  }

  /** `str.split()` without a separator: the maximal runs of non-whitespace characters. */
  function Split(s: string): (words: seq<string>)
    ensures forall i :: 0 <= i < |words| ==> Word(words[i])
    decreases |s|
  {
    var t := LStrip(s);
    if t == [] then []
    else
      var n := WordLen(t);
      var w := t[..n];
      assert Word(w);
      var rest := Split(t[n..]);
      assert forall i :: 0 < i < |[w] + rest| ==> ([w] + rest)[i] == rest[i - 1];
      [w] + rest
  }

  /** `" ".join(words)`. */
  function JoinSpace(words: seq<string>): string {
    if words == [] then ""
    else if |words| == 1 then words[0]
    else words[0] + " " + JoinSpace(words[1..])
  }

  /** `" ".join(s.split())`: whitespace runs collapsed to one space, ends trimmed. */
  function Collapse(s: string): string {
    JoinSpace(Split(s))
  }

  lemma {:induction false} WordLenOfWord(w: string, rest: string)
    requires Word(w) && (rest == [] || IsSpace(rest[0]))
    ensures WordLen(w + rest) == |w|
    decreases |w|
  {
    assert (w + rest)[0] == w[0];
    if |w| > 1 {
      assert (w + rest)[1..] == w[1..] + rest;
      WordLenOfWord(w[1..], rest);
    } else {
      assert (w + rest)[1..] == rest;
    }
  }

  lemma SplitSpaceFront(s: string)
    ensures Split(" " + s) == Split(s)
  {
    assert (" " + s)[1..] == s;
  }

  /** A word splits into itself. */
  lemma SplitWord(w: string)
    requires Word(w)
    ensures Split(w) == [w]
  {
    WordLenOfWord(w, []);
    assert w + [] == w;
    assert LStrip(w) == w;
    assert w[..|w|] == w && w[|w|..] == [];
  }

  /** A word followed by a space splits off as the first word. */
  lemma SplitWordSpace(w: string, rest: string)
    requires Word(w)
    ensures Split(w + " " + rest) == [w] + Split(rest)
  {
    var s := w + " " + rest;
    assert s == w + (" " + rest);
    assert LStrip(s) == s by { assert s[0] == w[0]; }
    WordLenOfWord(w, " " + rest);
    assert s[..|w|] == w;
    assert s[|w|..] == " " + rest;
    SplitSpaceFront(rest);
  }

  /** Splitting words joined by single spaces gives the words back. */
  lemma {:induction false} SplitJoin(words: seq<string>)
    requires forall i :: 0 <= i < |words| ==> Word(words[i])
    ensures Split(JoinSpace(words)) == words
    decreases |words|
  {
    if words == [] {
    } else if |words| == 1 {
      SplitWord(words[0]);
    } else {
      var rest := words[1..];
      var joined := JoinSpace(rest);
      assert JoinSpace(words) == words[0] + " " + joined;
      assert forall i :: 0 <= i < |rest| ==> rest[i] == words[i + 1];
      SplitJoin(rest);
      SplitWordSpace(words[0], joined);
      assert Split(JoinSpace(words)) == [words[0]] + rest;
      assert [words[0]] + rest == words;
    }
  }

  /** A string that splits into no words is all whitespace. */
  lemma AllSpaces(s: string)
    requires Split(s) == []
    ensures forall i :: 0 <= i < |s| ==> IsSpace(s[i])
  {
    assert LStrip(s) == [];
  }

  /** Collapsing whitespace twice is the same as collapsing it once. */
  lemma CollapseIdempotent(s: string)
    ensures Collapse(Collapse(s)) == Collapse(s)
  {
    SplitJoin(Split(s));
  }

  /** A string whose only whitespace characters are single spaces between two non-spaces. */
  predicate SingleSpaced(s: string) {
    forall i :: 0 <= i < |s| && IsSpace(s[i]) ==>
      s[i] == ' ' && 0 < i < |s| - 1 && !IsSpace(s[i - 1]) && !IsSpace(s[i + 1])
  }

  lemma {:induction false} JoinSpaceShape(words: seq<string>)
    requires forall i :: 0 <= i < |words| ==> Word(words[i])
    ensures SingleSpaced(JoinSpace(words))
    ensures words != [] ==>
      (JoinSpace(words) != [] && !IsSpace(JoinSpace(words)[0])
       && !IsSpace(JoinSpace(words)[|JoinSpace(words)| - 1]))
    decreases |words|
  {
    if |words| == 1 {
      assert JoinSpace(words) == words[0];
    } else if |words| > 1 {
      var w := words[0];
      JoinSpaceShape(words[1..]);
      var rest := JoinSpace(words[1..]);
      var s := w + " " + rest;
      assert JoinSpace(words) == s;
      forall i | 0 <= i < |s|
        ensures IsSpace(s[i]) ==> s[i] == ' ' && 0 < i < |s| - 1 && !IsSpace(s[i - 1]) && !IsSpace(s[i + 1])
      {
        if i < |w| {
          assert s[i] == w[i];
        } else if i == |w| {
          assert s[i - 1] == w[|w| - 1];
          assert s[i + 1] == rest[0];
        } else {
          var k := i - |w| - 1;
          assert s[i] == rest[k];
          if IsSpace(rest[k]) {
            assert s[i - 1] == rest[k - 1];
            assert s[i + 1] == rest[k + 1];
          }
        }
      }
    }
  }

  /** The collapsed string has no leading, trailing, repeated or non-space whitespace. */
  lemma CollapseShape(s: string)
    ensures SingleSpaced(Collapse(s))
    ensures Collapse(s) == [] || (!IsSpace(Collapse(s)[0]) && !IsSpace(Collapse(s)[|Collapse(s)| - 1]))
  {
    JoinSpaceShape(Split(s));
  }

  /** Every character of `JoinSpace(words)` is a space or a character of some word. */
  lemma {:induction false} JoinSpaceChars(words: seq<string>, c: char)
    requires c != ' ' && forall i :: 0 <= i < |words| ==> c !in words[i]
    ensures c !in JoinSpace(words)
    decreases |words|
  {
    if |words| > 1 {
      JoinSpaceChars(words[1..], c);
    }
  }

  /** A word of `Split(s)` only holds characters of `s`. */
  lemma {:induction false} SplitChars(s: string, c: char)
    requires c !in s
    ensures forall i :: 0 <= i < |Split(s)| ==> c !in Split(s)[i]
    decreases |s|
  {
    var t := LStrip(s);
    if t != [] {
      var n := WordLen(t);
      assert c !in t;
      assert c !in t[n..];
      SplitChars(t[n..], c);
      var rest := Split(t[n..]);
      assert Split(s) == [t[..n]] + rest;
      assert c !in t[..n];
      assert forall i :: 0 < i < |Split(s)| ==> Split(s)[i] == rest[i - 1];
    }
  }

  /** Collapsing whitespace introduces no character other than the space. */
  lemma CollapseKeepsOut(s: string, c: char)
    requires c != ' ' && c !in s
    ensures c !in Collapse(s)
  {
    SplitChars(s, c);
    JoinSpaceChars(Split(s), c);
  }

  // ---------------------------------------------------------------- lines

  /** Index of the first line boundary, or `|s|`. */
  function LineEnd(s: string): (n: nat)
    ensures n <= |s|
    ensures forall i :: 0 <= i < n ==> !IsLineBreak(s[i])
    ensures n < |s| ==> IsLineBreak(s[n])
  {
    if s == [] || IsLineBreak(s[0]) then 0 else 1 + LineEnd(s[1..])
  }

  /** `str.splitlines()`: the lines without their boundaries; `\r\n` is one boundary and a
      final boundary does not open an empty last line. */
  function SplitLines(s: string): (lines: seq<string>)
    ensures forall i, j :: 0 <= i < |lines| && 0 <= j < |lines[i]| ==> !IsLineBreak(lines[i][j])
    decreases |s|
  {
    if s == [] then []
    else
      var n := LineEnd(s);
      if n == |s| then [s]
      else
        var next := if s[n] == '\r' && n + 1 < |s| && s[n + 1] == '\n' then n + 2 else n + 1;
        [s[..n]] + SplitLines(s[next..])
  }

  /** The number of '\n' characters. */
  function Newlines(s: string): nat {
    if s == [] then 0 else (if s[0] == '\n' then 1 else 0) + Newlines(s[1..])
  }

  lemma {:induction false} NewlinesAppend(a: string, b: string)
    ensures Newlines(a + b) == Newlines(a) + Newlines(b)
  {
    if a == [] {
      assert a + b == b;
    } else {
      assert (a + b)[0] == a[0] && (a + b)[1..] == a[1..] + b;
      NewlinesAppend(a[1..], b);
    }
  }

  /** When '\n' is the only line boundary, `splitlines()` gives one line per '\n', and one
      more for a last line without one. */
  lemma {:induction false} SplitLinesNewlines(s: string)
    requires forall i :: 0 <= i < |s| && IsLineBreak(s[i]) ==> s[i] == '\n'
    ensures |SplitLines(s)| == Newlines(s) + (if s != [] && s[|s| - 1] != '\n' then 1 else 0)
    decreases |s|
  {
    if s != [] {
      var n := LineEnd(s);
      NoNewlines(s[..n]);
      if n == |s| {
        assert s[..n] == s;
      } else {
        var rest := s[n + 1..];
        assert s == s[..n] + [s[n]] + rest;
        NewlinesAppend(s[..n] + [s[n]], rest);
        NewlinesAppend(s[..n], [s[n]]);
        SplitLinesNewlines(rest);
        if rest != [] {
          assert s[|s| - 1] == rest[|rest| - 1];
        }
      }
    }
  }

  lemma {:induction false} NoNewlines(s: string)
    requires forall i :: 0 <= i < |s| ==> !IsLineBreak(s[i])
    ensures Newlines(s) == 0
  {
    if s != [] {
      NoNewlines(s[1..]);
    }
  }

  // ---------------------------------------------------------------- digits

  function Zeros(n: nat): (r: string)
    ensures |r| == n && forall i :: 0 <= i < n ==> r[i] == '0'
  {
    if n == 0 then [] else "0" + Zeros(n - 1)
  }

  /** `s.zfill(width)`: zeros added on the left (after a leading sign) up to `width`. */
  function ZFill(s: string, width: nat): (r: string)
    ensures |r| == if |s| >= width then |s| else width
  {
    if |s| >= width then s
    else if s != [] && (s[0] == '+' || s[0] == '-') then [s[0]] + Zeros(width - |s|) + s[1..]
    else Zeros(width - |s|) + s
  }

  predicate AllDigits(s: string) {
    forall i :: 0 <= i < |s| ==> IsDigit(s[i])
  }

  /** The value of a string of decimal digits. */
  function DigitsValue(s: string): nat
    requires AllDigits(s)
  {
    if s == [] then 0 else DigitsValue(s[..|s| - 1]) * 10 + (s[|s| - 1] as int - '0' as int)
  }

  function DigitChar(d: nat): (c: char)
    requires d < 10
    ensures IsDigit(c)
  {
    ('0' as int + d) as char
  }

  /** Decimal rendering of a natural number, without leading zeros. */
  function NatToString(n: nat): (s: string)
    ensures s != [] && AllDigits(s)
    ensures n < 10 ==> |s| == 1
    ensures 10 <= n ==> |s| >= 2
  {
    if n < 10 then [DigitChar(n)] else NatToString(n / 10) + [DigitChar(n % 10)]
  }

  /** Python's `f"{n:02d}"` for a natural number. */
  function Pad2(n: nat): (s: string)
    ensures |s| >= 2 && AllDigits(s)
    ensures n < 100 ==> |s| == 2
  {
    if n < 10 then "0" + NatToString(n) else NatToString(n)
  }

  lemma DivMod10(hi: nat, lo: nat)
    requires lo < 10
    ensures (hi * 10 + lo) / 10 == hi && (hi * 10 + lo) % 10 == lo
  {}

  lemma OneDigit(c: char)
    requires IsDigit(c)
    ensures DigitsValue([c]) == c as int - '0' as int
    ensures DigitChar(c as int - '0' as int) == c
  {
    assert [c][..0] == [];
  }

  /** For one or two digits, `f"{int(d):02d}"` and `d.zfill(2)` agree. */
  lemma Pad2IsZFill(d: string)
    requires 1 <= |d| <= 2 && AllDigits(d)
    ensures Pad2(DigitsValue(d)) == ZFill(d, 2)
  {
    if |d| == 1 {
      assert d == [d[0]];
      Pad2OneDigit(d[0]);
    } else {
      assert d == [d[0], d[1]];
      Pad2TwoDigits(d[0], d[1]);
    }
  }

  lemma Pad2OneDigit(c: char)
    requires IsDigit(c)
    ensures Pad2(DigitsValue([c])) == ZFill([c], 2)
  {
    OneDigit(c);
    assert Pad2(DigitsValue([c])) == "0" + [c];
    assert Zeros(1) == "0";
  }

  lemma Pad2TwoDigits(a: char, b: char)
    requires IsDigit(a) && IsDigit(b)
    ensures Pad2(DigitsValue([a, b])) == [a, b] == ZFill([a, b], 2)
  {
    var hi := a as int - '0' as int;
    var lo := b as int - '0' as int;
    OneDigit(a);
    OneDigit(b);
    assert [a, b][..1] == [a];
    assert DigitsValue([a, b]) == hi * 10 + lo;
    if hi == 0 {
      assert Pad2(lo) == "0" + [b];
    } else {
      DivMod10(hi, lo);
      assert NatToString(hi * 10 + lo) == NatToString(hi) + [DigitChar(lo)];
    }
  }
}

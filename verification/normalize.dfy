/** normalize.py: the normalisers the extractors apply to dates, names, money, addresses and
    amounts. */
module Normalize {
  import opened Text
  import opened Fields
  import opened Oracle

  /** The currency suffix of every money and amount result, as the source stores it: a space
      and the euro sign encoded twice (U+0432 U+04EE U+00AC). */
  const EuroSuffix: string := " \U{0432}\U{04EE}\U{00AC}"

  // ================================================================ dates

  /** The four date patterns in the order they are tried: "15. März 2023", "15 de marzo de
      2023", "15 marzo 2023", "March 15, 2023". */
  const DatePatterns: seq<Pat> := [DatePattern(0), DatePattern(1), DatePattern(2), DatePattern(3)]

  predicate IsMonthCode(c: string) {
    |c| == 2 && ((c[0] == '0' && '1' <= c[1] <= '9') || (c[0] == '1' && '0' <= c[1] <= '2'))
  }

  /** The month tables. The keys "m\U{0413}\U{04E8}rz", "f\U{0413}\U{00A9}vrier",
      "ao\U{0413}\U{00BB}t" and "d\U{0413}\U{00A9}cembre" are stored exactly as the source
      stores them. */
  const EnglishMonths: map<string, string> :=
    map["january" := "01", "february" := "02", "march" := "03", "april" := "04", "may" := "05",
        "june" := "06", "july" := "07", "august" := "08", "september" := "09",
        "october" := "10", "november" := "11", "december" := "12"]

  const GermanMonths: map<string, string> :=
    map["januar" := "01", "februar" := "02", "m\U{0413}\U{04E8}rz" := "03", "maerz" := "03",
        "marz" := "03", "april" := "04", "mai" := "05", "juni" := "06", "juli" := "07",
        "august" := "08", "september" := "09", "oktober" := "10", "november" := "11",
        "dezember" := "12"]

  const FrenchMonths: map<string, string> :=
    map["janvier" := "01", "f\U{0413}\U{00A9}vrier" := "02", "mars" := "03", "avril" := "04",
        "mai" := "05", "juin" := "06", "juillet" := "07", "ao\U{0413}\U{00BB}t" := "08",
        "septembre" := "09", "octobre" := "10", "novembre" := "11",
        "d\U{0413}\U{00A9}cembre" := "12"]

  const SpanishMonths: map<string, string> :=
    map["enero" := "01", "febrero" := "02", "marzo" := "03", "abril" := "04", "mayo" := "05",
        "junio" := "06", "julio" := "07", "agosto" := "08", "septiembre" := "09",
        "octubre" := "10", "noviembre" := "11", "diciembre" := "12"]

  const ItalianMonths: map<string, string> :=
    map["gennaio" := "01", "febbraio" := "02", "marzo" := "03", "aprile" := "04",
        "maggio" := "05", "giugno" := "06", "luglio" := "07", "agosto" := "08",
        "settembre" := "09", "ottobre" := "10", "novembre" := "11", "dicembre" := "12"]

  /** The month table of a language, the English one for any other code. */
  function MonthTable(lang: string): map<string, string> {
    if lang == "de" then GermanMonths
    else if lang == "fr" then FrenchMonths
    else if lang == "es" then SpanishMonths
    else if lang == "it" then ItalianMonths
    else EnglishMonths
  }

  /** Every value of every table is a month code "01" to "12". */
  lemma MonthTableCodes(lang: string)
    ensures forall k :: k in MonthTable(lang) ==> IsMonthCode(MonthTable(lang)[k])
  {
    if lang == "de" {
      GermanCodes();
    } else if lang == "fr" {
      FrenchCodes();
    } else if lang == "es" {
      SpanishCodes();
    } else if lang == "it" {
      ItalianCodes();
    } else {
      EnglishCodes();
    }
  }

  lemma GermanCodes()
    ensures forall k :: k in GermanMonths ==> IsMonthCode(GermanMonths[k])
  {
  }

  lemma FrenchCodes()
    ensures forall k :: k in FrenchMonths ==> IsMonthCode(FrenchMonths[k])
  {
  }

  lemma SpanishCodes()
    ensures forall k :: k in SpanishMonths ==> IsMonthCode(SpanishMonths[k])
  {
  }

  lemma ItalianCodes()
    ensures forall k :: k in ItalianMonths ==> IsMonthCode(ItalianMonths[k])
  {
  }

  lemma EnglishCodes()
    ensures forall k :: k in EnglishMonths ==> IsMonthCode(EnglishMonths[k])
  {
  }

  /** The month code of a month name: the table entry of the lower-cased, accent-stripped name,
      "01" when there is none. */
  function MonthCode(o: Engine, lang: string, monthStr: string): (code: string)
    ensures IsMonthCode(code)
  {
    var key := o.stripAccents(Lower(monthStr));
    var table := MonthTable(lang);
    MonthTableCodes(lang);
    if key in table then table[key] else "01"
  }

  /** The group holding the month name: group 1 for "Month day, year", group 2 otherwise. */
  function MonthGroup(idx: nat): nat {
    if idx == 3 then 1 else 2
  }

  /** `f"{int(day):02d}.{month}.{year}"` for a match of date pattern `idx`. */
  function RenderDate(o: Engine, lang: string, idx: nat, m: Match): (r: string)
    requires DayShaped(m.Group(DayGroup(idx)))
    ensures |r| == 6 + |m.Group(3)|
    ensures r[..2] == ZFill(m.Group(DayGroup(idx)), 2) && AllDigits(r[..2])
    ensures r[2] == '.' && r[5] == '.'
    ensures r[3..5] == MonthCode(o, lang, m.Group(MonthGroup(idx)))
    ensures r[6..] == m.Group(3)
  {
    var day := m.Group(DayGroup(idx));
    var dd := Pad2(DigitsValue(day));
    DayPadded(day);
    var mm := MonthCode(o, lang, m.Group(MonthGroup(idx)));
    JoinedDate(dd, mm, m.Group(3));
    dd + "." + mm + "." + m.Group(3)
  }

  /** A one- or two-digit day padded to two digits. */
  lemma DayPadded(day: string)
    requires DayShaped(day)
    ensures var dd := Pad2(DigitsValue(day));
      |dd| == 2 && AllDigits(dd) && dd == ZFill(day, 2)
  {
    Pad2IsZFill(day);
  }

  /** The positions of the parts of "dd.mm.rest". */
  lemma JoinedDate(dd: string, mm: string, rest: string)
    requires |dd| == 2 && |mm| == 2
    ensures var r := dd + "." + mm + "." + rest;
      |r| == 6 + |rest| && r[..2] == dd && r[2] == '.' && r[3..5] == mm && r[5] == '.'
      && r[6..] == rest
  {
    var r := dd + "." + mm + "." + rest;
    assert r[..2] == dd && r[3..5] == mm && r[6..] == rest;
  }

  /** What `normalize_date(text, lang)` returns: `None` when no pattern matches, otherwise the
      rendering of the first pattern in list order that matches. */
  function NormalizedDate(o: Engine, text: string, lang: string): (r: Option<string>)
    ensures r.None? <==> forall i :: 0 <= i < 4 ==> o.search(DatePattern(i), text).None?
    ensures forall i :: (0 <= i < 4 && o.search(DatePattern(i), text).Some?
      && (forall j :: 0 <= j < i ==> o.search(DatePattern(j), text).None?)) ==>
      r == Some(RenderDate(o, lang, i, o.search(DatePattern(i), text).value))
  {
    assert forall i :: 0 <= i < 4 ==> DatePatterns[i] == DatePattern(i);
    match FirstMatch(o, DatePatterns, text)
    case None => None
    case Some(hit) => Some(RenderDate(o, lang, hit.0, hit.1))
  }

  /** `normalize_date`: the patterns are tried in order and the first match is rendered. */
  method NormalizeDate(o: Engine, text: string, lang: string) returns (r: Option<string>)
    ensures r == NormalizedDate(o, text, lang)
  {
    for i := 0 to 4
      invariant forall j :: 0 <= j < i ==> o.search(DatePattern(j), text).None?
    {
      var found := o.search(DatePatterns[i], text);
      if found.Some? {
        var m := found.value;
        var day, monthStr, year;
        if i == 3 {
          monthStr, day, year := m.Group(1), m.Group(2), m.Group(3);
        } else {
          day, monthStr, year := m.Group(1), m.Group(2), m.Group(3);
        }
        assert DayShaped(day);
        var month := MonthCode(o, lang, monthStr);
        return Some(Pad2(DigitsValue(day)) + "." + month + "." + year);
      }
    }
    return None;
  }

  /** A matched date is "DD.MM.YYYY"-shaped: two digits, a dot, a month code, a dot, and the
      year group copied verbatim. */
  lemma DateShape(o: Engine, text: string, lang: string)
    requires NormalizedDate(o, text, lang).Some?
    ensures var r := NormalizedDate(o, text, lang).value;
      |r| >= 6 && AllDigits(r[..2]) && r[2] == '.' && IsMonthCode(r[3..5]) && r[5] == '.'
  {
    var hit := FirstMatch(o, DatePatterns, text).value;
    var r := RenderDate(o, lang, hit.0, hit.1);
    assert r == NormalizedDate(o, text, lang).value;
  }

  /** "März" is lower-cased to "märz"; where accent stripping turns that into "marz", the
      German table gives March. */
  lemma GermanMarch(o: Engine)
    requires o.stripAccents("m\U{E4}rz") == "marz"
    ensures MonthCode(o, "de", "M\U{E4}rz") == "03"
  {
    assert Lower("M\U{E4}rz") == "m\U{E4}rz" by {
      assert Lower("M\U{E4}rz")[0] == LowerChar('M');
    }
  }

  /** The French keys for February, August and December are stored with an upper-case letter
      (U+0413), while the lookup key is lower-cased and accent-stripped: those entries are never
      used, so a French date never gets the codes "02", "08" or "12". */
  lemma FrenchAccentedMonthsUnreachable(o: Engine, monthStr: string)
    ensures MonthCode(o, "fr", monthStr) !in {"02", "08", "12"}
  {
    var lowered := Lower(monthStr);
    assert NoUpper(lowered);
    var key := o.stripAccents(lowered);
    assert '\U{0413}' !in key;
    assert IsUpperChar("f\U{0413}\U{00A9}vrier"[1]);
    assert IsUpperChar("ao\U{0413}\U{00BB}t"[2]);
    assert IsUpperChar("d\U{0413}\U{00A9}cembre"[1]);
  }

  // ================================================================ names

  function Capitalized(ws: seq<string>): (r: seq<string>)
    ensures |r| == |ws| && forall i :: 0 <= i < |ws| ==> r[i] == Capitalize(ws[i])
  {
    if ws == [] then [] else [Capitalize(ws[0])] + Capitalized(ws[1..])
  }

  /** `normalize_name`: `None` for the empty name; two or more tokens are each capitalised and
      joined by single spaces; otherwise the stripped name is title-cased. */
  function NormalizeName(name: string): (r: Option<string>)
    ensures r.None? <==> name == []
  {
    if name == [] then None
    else
      var parts := Split(Strip(name));
      if |parts| >= 2 then Some(Capitalize(parts[0]) + " " + JoinSpace(Capitalized(parts[1..])))
      else Some(Title(Strip(name)))
  }

  lemma CapitalizedWords(ws: seq<string>)
    requires forall i :: 0 <= i < |ws| ==> Word(ws[i])
    ensures forall i :: 0 <= i < |ws| ==> Word(Capitalized(ws)[i])
  {
    forall i | 0 <= i < |ws| ensures Word(Capitalized(ws)[i]) {
      CapitalizeWord(ws[i]);
    }
  }

  /** With two or more tokens, the result is the capitalised tokens joined by single spaces,
      and splitting it gives back exactly those tokens. */
  lemma NameTokens(name: string)
    requires |Split(Strip(name))| >= 2
    ensures name != []
    ensures NormalizeName(name) == Some(JoinSpace(Capitalized(Split(Strip(name)))))
    ensures Split(NormalizeName(name).value) == Capitalized(Split(Strip(name)))
  {
    var parts := Split(Strip(name));
    var caps := Capitalized(parts);
    assert caps[1..] == Capitalized(parts[1..]);
    assert Strip(name) != [];
    CapitalizedWords(parts);
    SplitJoin(caps);
  }

  lemma StripTrimmed(s: string)
    requires s == [] || (!IsSpace(s[0]) && !IsSpace(s[|s| - 1]))
    ensures Strip(s) == s
  {
    assert LStrip(s) == s;
  }

  /** A trimmed string that splits into one token is that token. */
  lemma SingleToken(t: string)
    requires t == [] || (!IsSpace(t[0]) && !IsSpace(t[|t| - 1]))
    requires |Split(t)| == 1
    ensures Word(t)
  {
    assert t != [];
    assert LStrip(t) == t;
    var n := WordLen(t);
    var u := t[n..];
    assert Split(t) == [t[..n]] + Split(u);
    assert |Split(u)| == 0;
    assert n == |t|;
    assert t[..n] == t;
  }

  /** Words joined by single spaces normalise to their capitalised forms. */
  lemma NameOfWords(ws: seq<string>)
    requires |ws| >= 2 && forall i :: 0 <= i < |ws| ==> Word(ws[i])
    ensures NormalizeName(JoinSpace(ws)) == Some(JoinSpace(Capitalized(ws)))
  {
    var y := JoinSpace(ws);
    JoinSpaceShape(ws);
    StripTrimmed(y);
    SplitJoin(ws);
    assert Split(Strip(y)) == ws;
    var caps := Capitalized(ws);
    assert caps[1..] == Capitalized(ws[1..]);
    assert JoinSpace(caps) == caps[0] + " " + JoinSpace(caps[1..]);
  }

  /** A single word normalises to its title-cased form. */
  lemma NameOfWord(w: string)
    requires Word(w)
    ensures NormalizeName(w) == Some(Title(w))
  {
    StripTrimmed(w);
    assert JoinSpace([w]) == w;
    SplitJoin([w]);
    assert Split(Strip(w)) == [w];
  }

  lemma NameIdempotentTokens(name: string)
    requires |Split(Strip(name))| >= 2
    ensures NormalizeName(NormalizeName(name).value) == NormalizeName(name)
  {
    var parts := Split(Strip(name));
    var caps := Capitalized(parts);
    var y := JoinSpace(caps);
    NameTokens(name);
    assert NormalizeName(name) == Some(y);
    CapitalizedWords(parts);
    NameOfWords(caps);
    CapitalizedTwice(parts);
  }

  /** Capitalising capitalised words changes nothing. */
  lemma CapitalizedTwice(ws: seq<string>)
    ensures Capitalized(Capitalized(ws)) == Capitalized(ws)
  {
    var caps := Capitalized(ws);
    forall i | 0 <= i < |caps| ensures Capitalized(caps)[i] == caps[i] {
      CapitalizeIdempotent(ws[i]);
    }
  }

  lemma NameIdempotentSingle(name: string)
    requires name != [] && |Split(Strip(name))| < 2 && Strip(name) != []
    ensures NormalizeName(NormalizeName(name).value) == NormalizeName(name)
  {
    var t := Strip(name);
    var y := Title(t);
    assert NormalizeName(name) == Some(y);
    StripTrimmed(t);
    assert |Split(t)| == 1;
    SingleToken(t);
    assert Word(y);
    NameOfWord(y);
    TitleIdempotent(t);
  }

  /** Normalising a normalised, non-empty name changes nothing. */
  lemma NameIdempotent(name: string)
    requires NormalizeName(name).Some? && NormalizeName(name).value != []
    ensures NormalizeName(NormalizeName(name).value) == NormalizeName(name)
  {
    if |Split(Strip(name))| >= 2 {
      NameIdempotentTokens(name);
    } else {
      assert Title(Strip(name)) != [];
      NameIdempotentSingle(name);
    }
  }

  // ================================================================ money

  /** Python's `float(s)` accepts a string of digits and at most one dot holding at least one
      digit; the result is its integer and fraction digits. */
  function ParseDecimal(s: string): (r: Option<(string, string)>)
    ensures r.Some? ==> AllDigits(r.value.0) && AllDigits(r.value.1)
  {
    var k := FindChar(s, '.');
    var ip := if k == -1 then s else s[..k];
    var fp := if k == -1 then "" else s[k + 1..];
    if AllDigits(ip) && AllDigits(fp) && (ip != [] || fp != []) then Some((ip, fp)) else None
  }

  /** `f"{x:.2f}"` of a parsed decimal: the integer part without leading zeros, a dot and two
      fraction digits. */
  function Fixed2(ip: string, fp: string): (r: string)
    requires AllDigits(ip) && AllDigits(fp)
    ensures |r| >= 4 && AllDigits(r[..|r| - 3]) && r[|r| - 3] == '.' && AllDigits(r[|r| - 2..])
  {
    var whole := NatToString(DigitsValue(ip));
    var frac := if |fp| >= 2 then fp[..2] else fp + Zeros(2 - |fp|);
    assert (whole + "." + frac)[..|whole|] == whole;
    whole + "." + frac
  }

  /** The separator handling of `normalize_money`. */
  function MoneySeparators(a: string, lang: string): string {
    if lang in ["de", "es", "fr", "it"] then
      if ',' in a && '.' in a then Replace(Replace(a, ".", ""), ",", ".")
      else if ',' in a then Replace(a, ",", ".")
      else a
    else Replace(a, ",", "")
  }

  /** A money string: digits, a dot, two digits and the euro suffix. */
  predicate MoneyText(s: string) {
    var n := |s| - |EuroSuffix|;
    n >= 4 && s[n..] == EuroSuffix && AllDigits(s[..n - 3]) && s[n - 3] == '.'
    && AllDigits(s[n - 2..n])
  }

  /** `normalize_money`: `None` for the empty text, for a text (spaces removed) without a
      number run, and for a run `float` rejects; otherwise two decimals and the euro suffix. */
  function NormalizeMoney(o: Engine, text: string, lang: string): (r: Option<string>)
    ensures text == [] ==> r.None?
    ensures o.search(NumberRun, Replace(text, " ", "")).None? ==> r.None?
    ensures text != [] && o.search(NumberRun, Replace(text, " ", "")).Some? ==>
      (r.None? <==>
         ParseDecimal(MoneySeparators(o.search(NumberRun, Replace(text, " ", "")).value.Group(1),
                                      lang)).None?)
    ensures r.Some? ==> MoneyText(r.value)
  {
    if text == [] then None
    else match o.search(NumberRun, Replace(text, " ", ""))
      case None => None
      case Some(m) =>
        match ParseDecimal(MoneySeparators(m.Group(1), lang))
        case None => None
        case Some(d) =>
          var f := Fixed2(d.0, d.1);
          assert (f + EuroSuffix)[..|f|] == f;
          Some(f + EuroSuffix)
  }

  /** No comma survives the separator handling, in any language. */
  lemma MoneyNoComma(a: string, lang: string)
    ensures ',' !in MoneySeparators(a, lang)
  {
    ReplaceCharRemoves(a, ',', "");
    ReplaceCharRemoves(a, ',', ".");
    ReplaceCharRemoves(Replace(a, ".", ""), ',', ".");
  }

  lemma ReplaceAround(x: string, c: char, y: string, r: string)
    requires c !in x && c !in y
    ensures Replace(x + [c] + y, [c], r) == x + r + y
  {
    ReplaceCharAppend(x + [c], y, c, r);
    ReplaceCharAppend(x, [c], c, r);
    ReplaceCharAbsent(x, c, r);
    ReplaceCharAbsent(y, c, r);
    assert [c][..1] == [c] && [c][1..] == [];
  }

  /** Digits hold no separator. */
  lemma DigitsNoSeparator(a: string)
    requires AllDigits(a)
    ensures ',' !in a && '.' !in a
  {
  }

  /** Dropping the dot of "a.b,c" gives "ab,c". */
  lemma DotDropped(a: string, b: string, c: string)
    requires AllDigits(a) && AllDigits(b) && AllDigits(c)
    ensures Replace(a + "." + b + "," + c, ".", "") == a + b + "," + c
  {
    DigitsNoSeparator(a);
    DigitsNoSeparator(b);
    DigitsNoSeparator(c);
    var y := b + "," + c;
    assert '.' !in y by { assert y == b + [','] + c; }
    assert a + "." + b + "," + c == a + ['.'] + y;
    ReplaceAround(a, '.', y, "");
    assert "." == ['.'];
    assert a + "" + y == a + b + "," + c;
  }

  /** Dropping the comma of "a,b.c" gives "ab.c". */
  lemma CommaDropped(a: string, b: string, c: string)
    requires AllDigits(a) && AllDigits(b) && AllDigits(c)
    ensures Replace(a + "," + b + "." + c, ",", "") == a + b + "." + c
  {
    DigitsNoSeparator(a);
    DigitsNoSeparator(b);
    DigitsNoSeparator(c);
    var y := b + "." + c;
    assert ',' !in y by { assert y == b + ['.'] + c; }
    assert a + "," + b + "." + c == a + [','] + y;
    ReplaceAround(a, ',', y, "");
    assert "," == [','];
    assert a + "" + y == a + b + "." + c;
  }

  /** Turning the comma of "ab,c" into a dot gives "ab.c". */
  lemma CommaToPoint(a: string, b: string, c: string)
    requires AllDigits(a) && AllDigits(b) && AllDigits(c)
    ensures Replace(a + b + "," + c, ",", ".") == a + b + "." + c
  {
    DigitsNoSeparator(a);
    DigitsNoSeparator(b);
    DigitsNoSeparator(c);
    assert a + b + "," + c == (a + b) + [','] + c;
    ReplaceAround(a + b, ',', c, ".");
  }

  /** "a.b,c" holds both separators, the dot first. */
  lemma DotFirstSeparators(a: string, b: string, c: string)
    ensures var s := a + "." + b + "," + c;
      ',' in s && '.' in s && s[|a|] == '.' && s[|a| + 1 + |b|] == ','
  {
    var s := a + "." + b + "," + c;
    assert s[|a|] == '.' && s[|a| + 1 + |b|] == ',';
  }

  /** "a,b.c" holds both separators, the comma first. */
  lemma CommaFirstSeparators(a: string, b: string, c: string)
    ensures var s := a + "," + b + "." + c;
      ',' in s && '.' in s && s[|a|] == ',' && s[|a| + 1 + |b|] == '.'
  {
    var s := a + "," + b + "." + c;
    assert s[|a|] == ',' && s[|a| + 1 + |b|] == '.';
  }

  /** "a.b,c" read by a European handler and "a,b.c" read by the English handler give the
      same number "ab.c". */
  lemma MoneyNotations(a: string, b: string, c: string, lang: string)
    requires AllDigits(a) && AllDigits(b) && AllDigits(c)
    requires lang in ["de", "es", "fr", "it"]
    ensures MoneySeparators(a + "." + b + "," + c, lang) == a + b + "." + c
    ensures MoneySeparators(a + "," + b + "." + c, "en") == a + b + "." + c
  {
    DotFirstSeparators(a, b, c);
    DotDropped(a, b, c);
    CommaToPoint(a, b, c);
    CommaDropped(a, b, c);
  }

  /** `float` of digits, a dot and digits reads those integer and fraction digits. */
  lemma ParseDecimalPoint(x: string, y: string)
    requires AllDigits(x) && AllDigits(y) && (x != [] || y != [])
    ensures ParseDecimal(x + "." + y) == Some((x, y))
  {
    var s := x + "." + y;
    DigitsNoSeparator(x);
    assert s == x + ['.'] + y;
    FindCharAt(x, '.', y);
    assert s[..|x|] == x && s[|x| + 1..] == y;
  }

  /** `float` of a digit string without a dot reads it as the integer digits. */
  lemma ParseDecimalWhole(x: string)
    requires AllDigits(x) && x != []
    ensures ParseDecimal(x) == Some((x, ""))
  {
    DigitsNoSeparator(x);
  }

  /** Two fraction digits are rendered as they are. */
  lemma Fixed2Exact(x: string, c: string)
    requires AllDigits(x) && AllDigits(c) && |c| == 2
    ensures Fixed2(x, c) == NatToString(DigitsValue(x)) + "." + c
  {
    assert c[..2] == c;
  }

  /** A European amount "a.b,c" with two decimals: the thousands dot dropped, the decimal
      comma read as the point. */
  lemma MoneyEuropean(o: Engine, t: string, lang: string, a: string, b: string, c: string)
    requires AllDigits(a) && AllDigits(b) && AllDigits(c) && |c| == 2
    requires t != [] && lang in ["de", "es", "fr", "it"]
    requires o.search(NumberRun, Replace(t, " ", "")).Some?
    requires o.search(NumberRun, Replace(t, " ", "")).value.Group(1) == a + "." + b + "," + c
    ensures NormalizeMoney(o, t, lang) == Some(NatToString(DigitsValue(a + b)) + "." + c + EuroSuffix)
  {
    MoneyNotations(a, b, c, lang);
    ParseDecimalPoint(a + b, c);
    Fixed2Exact(a + b, c);
  }

  /** An English amount "a,b.c" with two decimals (and the same for every language outside
      the European four): the thousands comma dropped. */
  lemma MoneyEnglish(o: Engine, t: string, lang: string, a: string, b: string, c: string)
    requires AllDigits(a) && AllDigits(b) && AllDigits(c) && |c| == 2
    requires t != [] && lang !in ["de", "es", "fr", "it"]
    requires o.search(NumberRun, Replace(t, " ", "")).Some?
    requires o.search(NumberRun, Replace(t, " ", "")).value.Group(1) == a + "," + b + "." + c
    ensures NormalizeMoney(o, t, lang) == Some(NatToString(DigitsValue(a + b)) + "." + c + EuroSuffix)
  {
    CommaDropped(a, b, c);
    assert MoneySeparators(a + "," + b + "." + c, lang) == a + b + "." + c;
    ParseDecimalPoint(a + b, c);
    Fixed2Exact(a + b, c);
  }

  /** A European amount "a,c" with a lone comma: the comma is the decimal point. */
  lemma MoneyLoneComma(o: Engine, t: string, lang: string, a: string, c: string)
    requires AllDigits(a) && AllDigits(c) && |c| == 2
    requires t != [] && lang in ["de", "es", "fr", "it"]
    requires o.search(NumberRun, Replace(t, " ", "")).Some?
    requires o.search(NumberRun, Replace(t, " ", "")).value.Group(1) == a + "," + c
    ensures NormalizeMoney(o, t, lang) == Some(NatToString(DigitsValue(a)) + "." + c + EuroSuffix)
  {
    DigitsNoSeparator(a);
    DigitsNoSeparator(c);
    var run := a + "," + c;
    assert run == a + [','] + c;
    assert ',' in run && '.' !in run;
    ReplaceAround(a, ',', c, ".");
    assert MoneySeparators(run, lang) == a + "." + c;
    ParseDecimalPoint(a, c);
    Fixed2Exact(a, c);
  }

  /** A run of digits alone, in any language: the whole number with ".00". */
  lemma MoneyWhole(o: Engine, t: string, lang: string, a: string)
    requires AllDigits(a) && a != [] && t != []
    requires o.search(NumberRun, Replace(t, " ", "")).Some?
    requires o.search(NumberRun, Replace(t, " ", "")).value.Group(1) == a
    ensures NormalizeMoney(o, t, lang) == Some(NatToString(DigitsValue(a)) + ".00" + EuroSuffix)
  {
    DigitsNoSeparator(a);
    ReplaceCharAbsent(a, ',', "");
    assert MoneySeparators(a, lang) == a;
    ParseDecimalWhole(a);
    assert "" + Zeros(2) == "00";
    assert Fixed2(a, "") == NatToString(DigitsValue(a)) + ".00";
  }

  // ================================================================ addresses

  /** Replacements `(wrong, right)` applied in order; every `wrong` is non-empty. */
  predicate Replacements(pairs: seq<(string, string)>) {
    forall i :: 0 <= i < |pairs| ==> pairs[i].0 != []
  }

  /** Each replacement applied in turn to the whole text. */
  function ApplyAll(s: string, pairs: seq<(string, string)>): string
    requires Replacements(pairs)
    decreases |pairs|
  {
    if pairs == [] then s else ApplyAll(Replace(s, pairs[0].0, pairs[0].1), pairs[1..])
  }

  /** The OCR corrections every address gets. */
  const OcrFixes: seq<(string, string)> :=
    [("O", "0"), ("l", "1"), ("I", "1"),
     (" strabe", " stra\U{0413}\U{04B9}e"), (" Strabe", " Stra\U{0413}\U{04B9}e")]

  /** The corrections of a language (none for a code outside the table). */
  function LangFixes(lang: string): (pairs: seq<(string, string)>)
    ensures Replacements(pairs)
  {
    if lang == "de" then
      [("Deutsch1and", "Deutschland"), ("Germa ny", "Germany"), ("Ber1in", "Berlin"),
       ("M\U{0413}\U{0458}nch en", "M\U{0413}\U{0458}nchen")]
    else if lang == "fr" then
      [("P aris", "Paris"), ("Mar seille", "Marseille"), ("Fran ce", "France")]
    else if lang == "es" then
      [("M adrid", "Madrid"), ("Bar celona", "Barcelona"), ("Espa \U{0413}\U{04B1}a", "Espa\U{0413}\U{04B1}a")]
    else if lang == "it" then
      [("R oma", "Roma"), ("M ilano", "Milano"), ("Ita lia", "Italia")]
    else if lang == "en" then
      [("Un ited", "United"), ("Lon don", "London"), ("New York City", "New York")]
    else []
  }

  /** The languages that have an address grammar. */
  function GrammarLang(lang: string): (r: Option<Lang>)
    ensures r.Some? ==> r.value != En && LangCode(r.value) == lang
    ensures r.None? <==> lang !in ["de", "fr", "es", "it"]
  {
    var l := LangOf(lang);
    if l.Some? && l.value != En then l else None
  }

  /** What `normalize_address(address, lang)` returns: `None` for the empty address; the
      corrected, whitespace-collapsed address; or `IndexError` when the language's grammar
      matches, because the reformatting reads a sixth element of a five-element tuple. */
  function AddressResult(o: Engine, address: string, lang: string): Result<Option<string>> {
    if address == [] then Ok(None)
    else
      var cleaned := Collapse(ApplyAll(ApplyAll(address, OcrFixes), LangFixes(lang)));
      var g := GrammarLang(lang);
      if g.Some? && o.search(AddressGrammar(g.value), cleaned).Some? then Raised("IndexError")
      else Ok(Some(cleaned))
  }

  /** A loop of `s = s.replace(wrong, right)` over a list of corrections. */
  method ReplaceEach(s: string, pairs: seq<(string, string)>) returns (r: string)
    requires Replacements(pairs)
    ensures r == ApplyAll(s, pairs)
  {
    r := s;
    for i := 0 to |pairs|
      invariant ApplyAll(r, pairs[i..]) == ApplyAll(s, pairs)
    {
      assert pairs[i..][1..] == pairs[i + 1..];
      r := Replace(r, pairs[i].0, pairs[i].1);
    }
  }

  /** `normalize_address`: the corrections are applied one after the other, then the
      whitespace is collapsed and the grammar, if any, is tried. */
  method NormalizeAddress(o: Engine, address: string, lang: string)
    returns (r: Result<Option<string>>)
    ensures r == AddressResult(o, address, lang)
    ensures lang !in ["de", "fr", "es", "it"] ==> r.Ok?
    ensures r == Ok(None) <==> address == []
  {
    if address == [] {
      return Ok(None);
    }
    var a := ReplaceEach(address, OcrFixes);
    var b := ReplaceEach(a, LangFixes(lang));
    var cleaned := Collapse(b);
    var g := GrammarLang(lang);
    if g.Some? {
      var m := o.search(AddressGrammar(g.value), cleaned);
      if m.Some? {
        return Raised("IndexError");
      }
    }
    return Ok(Some(cleaned));
  }

  /** Applying replacements keeps out a character that neither the text nor any replacement
      holds. */
  lemma {:induction false} ApplyAllKeepsOut(s: string, pairs: seq<(string, string)>, c: char)
    requires Replacements(pairs) && c !in s
    requires forall i :: 0 <= i < |pairs| ==> c !in pairs[i].1
    ensures c !in ApplyAll(s, pairs)
    decreases |pairs|
  {
    if pairs != [] {
      ReplaceKeepsOut(s, pairs[0].0, pairs[0].1, c);
      ApplyAllKeepsOut(Replace(s, pairs[0].0, pairs[0].1), pairs[1..], c);
    }
  }

  /** The three single-letter corrections leave no 'O', 'l' or 'I'. */
  lemma LetterFixesRemove(address: string)
    ensures var s2 := Replace(Replace(Replace(address, "O", "0"), "l", "1"), "I", "1");
      'O' !in s2 && 'l' !in s2 && 'I' !in s2
  {
    var s0 := Replace(address, "O", "0");
    var s1 := Replace(s0, "l", "1");
    ReplaceCharRemoves(address, 'O', "0");
    ReplaceKeepsOut(s0, "l", "1", 'O');
    ReplaceKeepsOut(s1, "I", "1", 'O');
    ReplaceCharRemoves(s0, 'l', "1");
    ReplaceKeepsOut(s1, "I", "1", 'l');
    ReplaceCharRemoves(s1, 'I', "1");
  }

  /** The two German corrections bring back none of 'O', 'l' and 'I'. */
  lemma StreetFixesKeepOut(s: string, c: char)
    requires c in "OlI" && c !in s
    ensures c !in ApplyAll(s, OcrFixes[3..])
  {
    var rest := OcrFixes[3..];
    assert forall i :: 0 <= i < |rest| ==> c !in rest[i].1;
    ApplyAllKeepsOut(s, rest, c);
  }

  /** The OCR corrections leave no 'O', 'l' or 'I'. */
  lemma OcrFixesRemove(address: string)
    ensures var fixed := ApplyAll(address, OcrFixes);
      'O' !in fixed && 'l' !in fixed && 'I' !in fixed
  {
    var s0 := Replace(address, "O", "0");
    var s1 := Replace(s0, "l", "1");
    var s2 := Replace(s1, "I", "1");
    assert OcrFixes[0] == ("O", "0") && OcrFixes[1..][0] == ("l", "1");
    assert OcrFixes[1..][1..][0] == ("I", "1") && OcrFixes[1..][1..][1..] == OcrFixes[3..];
    assert ApplyAll(address, OcrFixes) == ApplyAll(s2, OcrFixes[3..]) by {
      assert ApplyAll(address, OcrFixes) == ApplyAll(s0, OcrFixes[1..]);
      assert ApplyAll(s0, OcrFixes[1..]) == ApplyAll(s1, OcrFixes[1..][1..]);
    }
    LetterFixesRemove(address);
    StreetFixesKeepOut(s2, 'O');
    StreetFixesKeepOut(s2, 'l');
    StreetFixesKeepOut(s2, 'I');
  }

  /** The English corrections bring back none of 'O', 'l' and 'I'. */
  lemma EnglishFixesKeepOut(s: string, c: char)
    requires c in "OlI" && c !in s
    ensures c !in ApplyAll(s, LangFixes("en"))
  {
    var en := LangFixes("en");
    assert forall i :: 0 <= i < |en| ==> c !in en[i].1;
    ApplyAllKeepsOut(s, en, c);
  }

  /** For English (the language every caller passes) the result is never an error; it is a
      whitespace-collapsed string without 'O', 'l' or 'I', which the OCR corrections turn into
      digits. */
  lemma EnglishAddress(o: Engine, address: string)
    requires address != []
    ensures AddressResult(o, address, "en").Ok?
    ensures var r := AddressResult(o, address, "en").value;
      r.Some? && SingleSpaced(r.value) && 'O' !in r.value && 'l' !in r.value && 'I' !in r.value
  {
    var fixed := ApplyAll(address, OcrFixes);
    OcrFixesRemove(address);
    var en := LangFixes("en");
    var b := ApplyAll(fixed, en);
    EnglishFixesKeepOut(fixed, 'O');
    EnglishFixesKeepOut(fixed, 'l');
    EnglishFixesKeepOut(fixed, 'I');
    CollapseShape(b);
    CollapseKeepsOut(b, 'O');
    CollapseKeepsOut(b, 'l');
    CollapseKeepsOut(b, 'I');
    assert GrammarLang("en").None?;
    assert AddressResult(o, address, "en") == Ok(Some(Collapse(b)));
  }

  /** For a language with a grammar, the call raises exactly when the grammar matches the
      cleaned address. */
  lemma GrammarRaises(o: Engine, address: string, lang: string)
    requires address != [] && lang in ["de", "fr", "es", "it"]
    ensures AddressResult(o, address, lang).Raised? <==>
      o.search(AddressGrammar(LangOf(lang).value),
               Collapse(ApplyAll(ApplyAll(address, OcrFixes), LangFixes(lang)))).Some?
  {
  }

  // ================================================================ amounts

  /** The separator handling of `normalize_amount`: with both separators the first one is the
      thousands separator; a lone comma is the decimal separator. */
  function AmountSeparators(raw: string): string {
    if ',' in raw && '.' in raw then
      if FindChar(raw, ',') < FindChar(raw, '.') then Replace(raw, ",", "")
      else Replace(Replace(raw, ".", ""), ",", ".")
    else if ',' in raw then Replace(raw, ",", ".")
    else raw
  }

  /** `normalize_amount`: `None` without a number run, otherwise the cleaned run and the euro
      suffix. */
  function NormalizeAmount(o: Engine, text: string): (r: Option<string>)
    ensures r.None? <==> o.search(NumberRun, text).None?
    ensures r.Some? ==>
      |r.value| >= |EuroSuffix| && r.value[|r.value| - |EuroSuffix|..] == EuroSuffix
  {
    match o.search(NumberRun, text)
    case None => None
    case Some(m) =>
      var clean := AmountSeparators(m.Group(1));
      assert (clean + EuroSuffix)[|clean|..] == EuroSuffix;
      Some(clean + EuroSuffix)
  }

  /** The numeric part of an amount never contains a comma. */
  lemma AmountNoComma(raw: string)
    ensures ',' !in AmountSeparators(raw)
  {
    ReplaceCharRemoves(raw, ',', "");
    ReplaceCharRemoves(raw, ',', ".");
    ReplaceCharRemoves(Replace(raw, ".", ""), ',', ".");
  }

  lemma {:induction false} FindCharAt(x: string, c: char, y: string)
    requires c !in x
    ensures FindChar(x + [c] + y, c) == |x|
    decreases |x|
  {
    var s := x + [c] + y;
    if x == [] {
      assert s[0] == c;
    } else {
      assert s[0] == x[0];
      assert s[1..] == x[1..] + [c] + y;
      FindCharAt(x[1..], c, y);
    }
  }

  /** "a,b.c" (digits a, b, c) is read as "ab.c": the comma comes first and is dropped. */
  lemma AmountCommaFirst(a: string, b: string, c: string)
    requires AllDigits(a) && AllDigits(b) && AllDigits(c)
    ensures AmountSeparators(a + "," + b + "." + c) == a + b + "." + c
  {
    DigitsNoSeparator(a);
    DigitsNoSeparator(b);
    CommaFirstSeparators(a, b, c);
    assert a + "," + b + "." + c == a + [','] + (b + "." + c);
    FindCharAt(a, ',', b + "." + c);
    assert a + "," + b + "." + c == (a + "," + b) + ['.'] + c;
    FindCharAt(a + "," + b, '.', c);
    CommaDropped(a, b, c);
  }

  /** "a.b,c" (digits a, b, c) is read as "ab.c": the dot is dropped and the comma becomes the
      decimal point. */
  lemma AmountDotFirst(a: string, b: string, c: string)
    requires AllDigits(a) && AllDigits(b) && AllDigits(c)
    ensures AmountSeparators(a + "." + b + "," + c) == a + b + "." + c
  {
    DigitsNoSeparator(a);
    DigitsNoSeparator(b);
    DotFirstSeparators(a, b, c);
    assert a + "." + b + "," + c == a + ['.'] + (b + "," + c);
    FindCharAt(a, '.', b + "," + c);
    assert a + "." + b + "," + c == (a + "." + b) + [','] + c;
    FindCharAt(a + "." + b, ',', c);
    DotDropped(a, b, c);
    CommaToPoint(a, b, c);
  }

  /** Both notations of the same number give the same amount. */
  lemma AmountNotations(o: Engine, t1: string, t2: string, a: string, b: string, c: string)
    requires AllDigits(a) && AllDigits(b) && AllDigits(c)
    requires o.search(NumberRun, t1).Some? && o.search(NumberRun, t1).value.Group(1) == a + "," + b + "." + c
    requires o.search(NumberRun, t2).Some? && o.search(NumberRun, t2).value.Group(1) == a + "." + b + "," + c
    ensures NormalizeAmount(o, t1) == NormalizeAmount(o, t2) == Some(a + b + "." + c + EuroSuffix)
  {
    AmountCommaFirst(a, b, c);
    AmountDotFirst(a, b, c);
  }
}

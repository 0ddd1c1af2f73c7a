/** The garnishment extractor: six fields, filled by the German court-order routine or the
    German enforcement-order routine according to literal signatures in the text, and left empty
    otherwise. */
module GarnishmentExtractor {
  import opened Text
  import opened Fields
  import opened Oracle
  import opened Normalize

  /** The six keys of every garnishment result. */
  const GarnishmentKeys: set<Key> :=
    {DebtorName, CreditorName, GarnishmentAmount, EffectiveDate, Duration, LegalAuthority}

  /** The dictionary the extractor starts from: every field `None`. */
  const Blank: Fields :=
    map[DebtorName := Null, CreditorName := Null, GarnishmentAmount := Null,
        EffectiveDate := Null, Duration := Null, LegalAuthority := Null]

  /** The phrases that identify a court order (both) and an enforcement order. */
  const DeliveryCertificate: string := "Zustellungsurkunde"
  const CourtOrderTitle: string := "Pf\U{00E4}ndungs- und \U{00DC}berweisungsbeschluss"
  const EnforcementTitle: string := "Pf\U{00E4}ndungs- und Einziehungsverf\U{00FC}gung"

  /** Group 1 of a match, stripped. */
  function StrippedGroup(o: Engine, p: Pat, text: string): Option<string> {
    match o.search(p, text)
    case None => None
    case Some(m) => Some(Strip(m.Group(1)))
  }

  /** The debtor of a debtor pattern: group 1 through `normalize_name`, stripped. The pattern
      captures at least one character, so the name is never `None`. */
  function DebtorOf(o: Engine, p: Pat, text: string): Option<string>
    requires DebtorPat(p)
  {
    match o.search(p, text)
    case None => None
    case Some(m) => Some(Strip(NormalizeName(m.Group(1)).value))
  }

  /** The date group of the first of two date patterns that matches, through
      `normalize_date(…, "de")`; `None` when neither matches. */
  function DateOf(o: Engine, first: Pat, second: Pat, text: string): Option<Option<string>> {
    match FirstMatch(o, [first, second], text)
    case None => None
    case Some(hit) => Some(NormalizedDate(o, hit.1.Group(1), "de"))
  }

  /** The date a pair of date patterns gives: the first pattern's date whenever it matches,
      the second's only when the first does not. */
  lemma DateOfPreference(o: Engine, first: Pat, second: Pat, text: string)
    ensures var a := o.search(first, text);
      var b := o.search(second, text);
      var date := DateOf(o, first, second, text);
      (a.Some? ==> date == Some(NormalizedDate(o, a.value.Group(1), "de")))
      && (a.None? && b.Some? ==> date == Some(NormalizedDate(o, b.value.Group(1), "de")))
      && (a.None? && b.None? ==> date.None?)
  {
    var pats := [first, second];
    assert pats[0] == first && pats[1] == second;
  }

  // ================================================================ court orders

  /** What the court-order searches find. */
  datatype CourtFinds = CourtFinds(
    debtor: Option<string>, creditor: Option<string>, authority: Option<string>,
    date: Option<Option<string>>)

  function CourtFindsOf(o: Engine, text: string): CourtFinds {
    CourtFinds(DebtorOf(o, CourtOrder(DebtorName, 0), text),
               StrippedGroup(o, CourtOrder(CreditorName, 0), text),
               StrippedGroup(o, CourtOrder(LegalAuthority, 0), text),
               DateOf(o, CourtOrder(EffectiveDate, 0), CourtOrder(EffectiveDate, 1), text))
  }

  /** The court-order routine applied to a dictionary: each found field written, the others
      left as they were. */
  function ApplyCourt(d: Fields, f: CourtFinds): Fields {
    PutFound(Put(Put(Put(d, DebtorName, f.debtor), CreditorName, f.creditor),
                 LegalAuthority, f.authority),
             EffectiveDate, f.date)
  }

  /** One `m.group(1).strip()` search of a routine. */
  method FindStripped(o: Engine, p: Pat, text: string) returns (value: Option<string>)
    ensures value == StrippedGroup(o, p, text)
  {
    var m := o.search(p, text);
    value := if m.Some? then Some(Strip(m.value.Group(1))) else None;
  }

  /** The debtor search: group 1 through `normalize_name`, stripped. */
  method FindDebtor(o: Engine, p: Pat, text: string) returns (debtor: Option<string>)
    requires DebtorPat(p)
    ensures debtor == DebtorOf(o, p, text)
  {
    var m := o.search(p, text);
    debtor := if m.Some? then Some(Strip(NormalizeName(m.value.Group(1)).value)) else None;
  }

  /** The date search: the first pattern, then the second when the first does not match, and
      the group through `normalize_date(…, "de")`. */
  method FindDate(o: Engine, first: Pat, second: Pat, text: string)
    returns (date: Option<Option<string>>)
    ensures date == DateOf(o, first, second, text)
  {
    DateOfPreference(o, first, second, text);
    var m := o.search(first, text);
    if m.None? {
      m := o.search(second, text);
    }
    date := None;
    if m.Some? {
      var normalized := NormalizeDate(o, m.value.Group(1), "de");
      date := Some(normalized);
    }
  }

  /** `extract_german_court_order`: debtor, creditor, court and date, each written when its
      pattern matches; the date prefers "vom <date>" over "den <date>". */
  method ExtractGermanCourtOrder(o: Engine, text: string, fields: Fields) returns (r: Fields)
    ensures r == ApplyCourt(fields, CourtFindsOf(o, text))
  {
    var debtor := FindDebtor(o, CourtOrder(DebtorName, 0), text);
    r := Store(fields, DebtorName, debtor);
    var creditor := FindStripped(o, CourtOrder(CreditorName, 0), text);
    r := Store(r, CreditorName, creditor);
    var authority := FindStripped(o, CourtOrder(LegalAuthority, 0), text);
    r := Store(r, LegalAuthority, authority);
    var date := FindDate(o, CourtOrder(EffectiveDate, 0), CourtOrder(EffectiveDate, 1), text);
    r := StoreFound(r, EffectiveDate, date);
  }

  /** The court-order routine writes only the debtor, creditor, court and date: every other
      entry, the amount and the duration among them, is kept as it was, and no key is added
      beyond those four. */
  lemma CourtLeavesOthers(d: Fields, f: CourtFinds)
    ensures forall k :: k !in {DebtorName, CreditorName, LegalAuthority, EffectiveDate} ==>
      (k in ApplyCourt(d, f) <==> k in d)
      && (k in d ==> ApplyCourt(d, f)[k] == d[k])
    ensures ApplyCourt(d, f).Keys <=
      d.Keys + {DebtorName, CreditorName, LegalAuthority, EffectiveDate}
    ensures GarnishmentKeys <= d.Keys ==> ApplyCourt(d, f).Keys == d.Keys
  {
  }

  // ================================================================ enforcement orders

  /** The three `legal_authority` patterns, in the order tried. */
  const AuthorityPats: seq<Pat> :=
    [EnforcementOrder(LegalAuthority, 0), EnforcementOrder(LegalAuthority, 1),
     EnforcementOrder(LegalAuthority, 2)]

  /** What the enforcement-order searches find. */
  datatype EnforcementFinds = EnforcementFinds(
    debtor: Option<string>, creditor: Option<string>, amount: Option<Option<string>>,
    date: Option<Option<string>>, authority: Option<string>, duration: Option<string>)

  /** Group 1 of the first authority pattern that matches, stripped. */
  function AuthorityOf(o: Engine, text: string): Option<string> {
    match FirstMatch(o, AuthorityPats, text)
    case None => None
    case Some(hit) => Some(Strip(hit.1.Group(1)))
  }

  function EnforcementFindsOf(o: Engine, text: string): EnforcementFinds {
    EnforcementFinds(
      DebtorOf(o, EnforcementOrder(DebtorName, 0), text),
      StrippedGroup(o, EnforcementOrder(CreditorName, 0), text),
      AmountOf(o, text),
      DateOf(o, EnforcementOrder(EffectiveDate, 0), EnforcementOrder(EffectiveDate, 1), text),
      AuthorityOf(o, text),
      GroupOf(o, EnforcementOrder(Duration, 0), text, 1))
  }

  /** The amount: group 1 through `normalize_money(…, "de")`. */
  function AmountOf(o: Engine, text: string): Option<Option<string>> {
    match o.search(EnforcementOrder(GarnishmentAmount, 0), text)
    case None => None
    case Some(m) => Some(NormalizeMoney(o, m.Group(1), "de"))
  }

  /** The enforcement-order routine applied to a dictionary: each found field written, and the
      duration written in any case, `None` without a match. */
  function ApplyEnforcement(d: Fields, f: EnforcementFinds): Fields {
    var d := PutFound(Put(Put(d, DebtorName, f.debtor), CreditorName, f.creditor),
                      GarnishmentAmount, f.amount);
    Put(PutFound(d, EffectiveDate, f.date), LegalAuthority, f.authority)
      [Duration := OfOption(f.duration)]
  }

  /** The amount search: group 1 through `normalize_money(…, "de")`. */
  method FindAmount(o: Engine, text: string) returns (amount: Option<Option<string>>)
    ensures amount == AmountOf(o, text)
  {
    var m := o.search(EnforcementOrder(GarnishmentAmount, 0), text);
    amount := if m.Some? then Some(NormalizeMoney(o, m.value.Group(1), "de")) else None;
  }

  /** A search kept as its group 1, unstripped. */
  method FindGroup(o: Engine, p: Pat, text: string) returns (value: Option<string>)
    ensures value == GroupOf(o, p, text, 1)
  {
    var m := o.search(p, text);
    value := if m.Some? then Some(m.value.Group(1)) else None;
  }

  /** The authority search: the three patterns in order, group 1 of the first that matches,
      stripped. */
  method FindAuthority(o: Engine, text: string) returns (authority: Option<string>)
    ensures authority == AuthorityOf(o, text)
  {
    AuthorityUnrolled(o, text);
    var m := o.search(AuthorityPats[0], text);
    if m.None? {
      m := o.search(AuthorityPats[1], text);
    }
    if m.None? {
      m := o.search(AuthorityPats[2], text);
    }
    authority := None;
    if m.Some? {
      authority := Some(Strip(m.value.Group(1)));
    }
  }

  /** `extract_german_enforcement_order`: debtor, creditor, amount, date, authority and
      duration, each from its pattern; the date and the authority try their patterns in
      order. */
  method ExtractGermanEnforcementOrder(o: Engine, text: string, fields: Fields)
    returns (r: Fields)
    ensures r == ApplyEnforcement(fields, EnforcementFindsOf(o, text))
  {
    var debtor := FindDebtor(o, EnforcementOrder(DebtorName, 0), text);
    var creditor := FindStripped(o, EnforcementOrder(CreditorName, 0), text);
    var amount := FindAmount(o, text);
    var date := FindDate(o, EnforcementOrder(EffectiveDate, 0), EnforcementOrder(EffectiveDate, 1),
                         text);
    var authority := FindAuthority(o, text);
    var duration := FindGroup(o, EnforcementOrder(Duration, 0), text);
    ghost var finds := EnforcementFinds(debtor, creditor, amount, date, authority, duration);
    assert finds == EnforcementFindsOf(o, text);
    r := Store(fields, DebtorName, debtor);
    r := Store(r, CreditorName, creditor);
    r := StoreFound(r, GarnishmentAmount, amount);
    r := StoreFound(r, EffectiveDate, date);
    r := Store(r, LegalAuthority, authority);
    r := r[Duration := OfOption(duration)];
  }

  /** The enforcement routine always writes the duration, `None` exactly when no duration
      pattern matched; it adds no key beyond the six. */
  lemma EnforcementDuration(d: Fields, f: EnforcementFinds)
    ensures Duration in ApplyEnforcement(d, f)
    ensures ApplyEnforcement(d, f)[Duration] == Null <==> f.duration.None?
    ensures ApplyEnforcement(d, f).Keys <= d.Keys + GarnishmentKeys
    ensures GarnishmentKeys <= d.Keys ==> ApplyEnforcement(d, f).Keys == d.Keys
  {
  }

  /** The authority written out pattern by pattern. */
  lemma AuthorityUnrolled(o: Engine, text: string)
    ensures var a := o.search(AuthorityPats[0], text);
      var b := o.search(AuthorityPats[1], text);
      var c := o.search(AuthorityPats[2], text);
      AuthorityOf(o, text) ==
        if a.Some? then Some(Strip(a.value.Group(1)))
        else if b.Some? then Some(Strip(b.value.Group(1)))
        else if c.Some? then Some(Strip(c.value.Group(1)))
        else None
  {
    var hit := FirstMatch(o, AuthorityPats, text);
    if hit.Some? {
      var i := hit.value.0;
      assert i == 0 || i == 1 || i == 2;
      if i == 1 {
        assert o.search(AuthorityPats[0], text).None?;
      } else if i == 2 {
        assert o.search(AuthorityPats[0], text).None?;
        assert o.search(AuthorityPats[1], text).None?;
      }
    }
  }

  /** The authority is the first of the three patterns, in listed order, that matches. */
  lemma AuthorityOrder(o: Engine, text: string)
    ensures var a := AuthorityOf(o, text);
      (a.None? <==> forall i :: 0 <= i < 3 ==> o.search(AuthorityPats[i], text).None?)
      && (forall i :: (0 <= i < 3 && o.search(AuthorityPats[i], text).Some?
                       && forall j :: 0 <= j < i ==> o.search(AuthorityPats[j], text).None?)
            ==> a == Some(Strip(o.search(AuthorityPats[i], text).value.Group(1))))
  {
    var hit := FirstMatch(o, AuthorityPats, text);
    forall i | 0 <= i < 3 && o.search(AuthorityPats[i], text).Some?
        && (forall j :: 0 <= j < i ==> o.search(AuthorityPats[j], text).None?)
      ensures hit == Some((i, o.search(AuthorityPats[i], text).value))
    {
      assert !(hit.value.0 < i) && !(i < hit.value.0);
    }
  }

  // ================================================================ dispatch

  /** `language_specific_extraction`: no language has patterns yet, so the dictionary comes
      back as it was. */
  method LanguageSpecificExtraction(text: string, lang: string, fields: Fields)
    returns (r: Fields)
    ensures r == fields
  {
    if lang == "de" {
    } else if lang == "en" {
    }
    r := fields;
  }

  /** What `extract_garnishment_fields(text, language)` returns. */
  function GarnishmentFields(o: Engine, text: string, lang: string): Fields {
    if Contains(text, DeliveryCertificate) && Contains(text, CourtOrderTitle) then
      ApplyCourt(Blank, CourtFindsOf(o, text))
    else if Contains(text, EnforcementTitle) then
      ApplyEnforcement(Blank, EnforcementFindsOf(o, text))
    else Blank
  }

  /** `extract_garnishment_fields`: the six fields set to `None`, then the court-order routine
      when both of its phrases occur, the enforcement routine when its title occurs, and the
      language fallback otherwise. */
  method ExtractGarnishmentFields(o: Engine, text: string, lang: string) returns (r: Fields)
    ensures r == GarnishmentFields(o, text, lang)
  {
    var fields := Blank;
    if Contains(text, DeliveryCertificate) && Contains(text, CourtOrderTitle) {
      r := ExtractGermanCourtOrder(o, text, fields);
    } else if Contains(text, EnforcementTitle) {
      r := ExtractGermanEnforcementOrder(o, text, fields);
    } else {
      r := LanguageSpecificExtraction(text, lang, fields);
    }
  }

  // ================================================================ properties

  /** Whatever the text and the language, the result has exactly the six garnishment keys. */
  lemma GarnishmentShape(o: Engine, text: string, lang: string)
    ensures GarnishmentFields(o, text, lang).Keys == GarnishmentKeys
  {
    assert Blank.Keys == GarnishmentKeys;
    if Contains(text, DeliveryCertificate) && Contains(text, CourtOrderTitle) {
      CourtLeavesOthers(Blank, CourtFindsOf(o, text));
    } else if Contains(text, EnforcementTitle) {
      EnforcementDuration(Blank, EnforcementFindsOf(o, text));
    }
  }

  /** Without either signature every field is `None`, in every language. */
  lemma NoSignature(o: Engine, text: string, lang: string)
    requires !(Contains(text, DeliveryCertificate) && Contains(text, CourtOrderTitle))
    requires !Contains(text, EnforcementTitle)
    ensures forall k :: k in GarnishmentFields(o, text, lang) ==>
      GarnishmentFields(o, text, lang)[k] == Null
  {
  }

  /** A court order never has an amount or a duration, and takes precedence over the
      enforcement title. */
  lemma CourtOrderFields(o: Engine, text: string, lang: string)
    requires Contains(text, DeliveryCertificate) && Contains(text, CourtOrderTitle)
    ensures var r := GarnishmentFields(o, text, lang);
      r[GarnishmentAmount] == Null && r[Duration] == Null
      && r == ApplyCourt(Blank, CourtFindsOf(o, text))
  {
    CourtLeavesOthers(Blank, CourtFindsOf(o, text));
  }

  /** An enforcement order's duration is `None` exactly when no duration pattern matches, and
      otherwise the captured text. */
  lemma EnforcementOrderDuration(o: Engine, text: string, lang: string)
    requires !(Contains(text, DeliveryCertificate) && Contains(text, CourtOrderTitle))
    requires Contains(text, EnforcementTitle)
    ensures var r := GarnishmentFields(o, text, lang);
      var m := o.search(EnforcementOrder(Duration, 0), text);
      (r[Duration] == Null <==> m.None?)
      && (m.Some? ==> r[Duration] == Str(m.value.Group(1)))
  {
    EnforcementDuration(Blank, EnforcementFindsOf(o, text));
  }
}

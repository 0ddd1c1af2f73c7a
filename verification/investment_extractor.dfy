/** The investment extractor: one common routine shared by the German, French and Spanish
    handlers (value, portfolio id, risk profile, asset count), the French account-number and
    maturity-amount additions, and the Italian and English handlers of their own. */
module InvestmentExtractor {
  import opened Text
  import opened Fields
  import opened Oracle
  import opened Normalize

  /** The keys an investment handler can write; the Italian handler also writes the customer
      name. */
  const InvestmentKeys: set<Key> := {PortfolioId, PortfolioValue, AssetNumber, RiskProfile}

  // ================================================================ asset sections

  /** `re.search(r"[A-Z][a-z]", line)`: an ASCII capital directly followed by an ASCII small
      letter. */
  predicate NamesAsset(line: string) {
    exists i :: 0 <= i < |line| - 1 && 'A' <= line[i] <= 'Z' && 'a' <= line[i + 1] <= 'z'
  }

  /** `sum(1 for line in lines if …)`: the lines that name an asset. */
  function AssetLines(lines: seq<string>): (n: nat)
    ensures n <= |lines|
  {
    if lines == [] then 0
    else AssetLines(lines[..|lines| - 1]) + (if NamesAsset(lines[|lines| - 1]) then 1 else 0)
  }

  /** Counting two runs of lines one after the other is adding their counts. */
  lemma {:induction false} AssetLinesAppend(a: seq<string>, b: seq<string>)
    ensures AssetLines(a + b) == AssetLines(a) + AssetLines(b)
    decreases |b|
  {
    if b == [] {
      assert a + b == a;
    } else {
      assert (a + b)[..|a + b| - 1] == a + b[..|b| - 1];
      AssetLinesAppend(a, b[..|b| - 1]);
    }
  }

  /** The count is zero exactly when no line names an asset, and the number of lines exactly
      when every line does. */
  lemma {:induction false} AssetLinesExtremes(lines: seq<string>)
    ensures AssetLines(lines) == 0 <==> forall i :: 0 <= i < |lines| ==> !NamesAsset(lines[i])
    ensures AssetLines(lines) == |lines| <==>
      forall i :: 0 <= i < |lines| ==> NamesAsset(lines[i])
  {
    if lines != [] {
      var init := lines[..|lines| - 1];
      AssetLinesExtremes(init);
      assert forall i :: 0 <= i < |init| ==> init[i] == lines[i];
    }
  }

  /** What `(?:.+\n?){1,10}` makes of the asset section when its lines break only at '\n': it
      is not empty, holds at most ten newlines, and a tenth newline ends it. */
  predicate SectionShaped(g: string) {
    g != [] && (forall i :: 0 <= i < |g| && IsLineBreak(g[i]) ==> g[i] == '\n')
    && Newlines(g) <= 10 && (Newlines(g) == 10 ==> g[|g| - 1] == '\n')
  }

  /** A section of that shape is at most ten lines, so at most ten assets are counted. */
  lemma SectionAssets(g: string)
    requires SectionShaped(g)
    ensures |SplitLines(g)| <= 10 && AssetLines(SplitLines(g)) <= 10
  {
    SplitLinesNewlines(g);
  }

  // ================================================================ the common routine

  /** The three patterns of a language's table: value (group 2), risk profile (group 2) and
      asset section (group 2). */
  function ValuePat(l: Lang): Pat { InvestmentLabel(l, PortfolioValue, 0) }
  function RiskPat(l: Lang): Pat { InvestmentLabel(l, RiskProfile, 0) }
  function SectionPat(l: Lang): Pat { InvestmentLabel(l, AssetNumber, 0) }

  /** What the common routine's searches find: the normalised value, the "PORT-…" id, the
      stripped risk profile and the number of asset lines (zero without a section). */
  datatype CommonFinds = CommonFinds(
    value: Option<Option<string>>, id: Option<string>, risk: Option<string>, assets: nat)

  /** Group 2 of the value pattern through `normalize_amount`. */
  function ValueOf(o: Engine, text: string, l: Lang): Option<Option<string>> {
    match o.search(ValuePat(l), text)
    case None => None
    case Some(m) => Some(NormalizeAmount(o, m.Group(2)))
  }

  /** The whole "PORT-XX-dddd-dddd" match. */
  function PortfolioIdOf(o: Engine, text: string): Option<string> {
    match o.search(PortfolioIdPattern, text)
    case None => None
    case Some(m) => Some(m.Group(0))
  }

  /** Group 2 of the risk pattern, stripped. */
  function RiskOf(o: Engine, text: string, l: Lang): Option<string> {
    match o.search(RiskPat(l), text)
    case None => None
    case Some(m) => Some(Strip(m.Group(2)))
  }

  /** The asset lines of the section (group 2); zero without a section. */
  function AssetsOf(o: Engine, text: string, l: Lang): nat {
    match o.search(SectionPat(l), text)
    case None => 0
    case Some(m) => AssetLines(SplitLines(m.Group(2)))
  }

  function CommonFindsOf(o: Engine, text: string, l: Lang): CommonFinds {
    CommonFinds(ValueOf(o, text, l), PortfolioIdOf(o, text), RiskOf(o, text, l),
                AssetsOf(o, text, l))
  }

  /** The dictionary the common routine builds from what it found: the asset count only when
      it is positive. */
  function AssembleCommon(f: CommonFinds): Fields {
    var d := Put(PutFound(map[], PortfolioValue, f.value), PortfolioId, f.id);
    var d := Put(d, RiskProfile, f.risk);
    if f.assets > 0 then d[AssetNumber := Int(f.assets)] else d
  }

  /** What `_extract_common_investment(text, patterns)` returns for a language's table. */
  function CommonInvestment(o: Engine, text: string, l: Lang): Fields {
    AssembleCommon(CommonFindsOf(o, text, l))
  }

  /** `_extract_common_investment`: value, portfolio id, risk profile and asset count, each
      written when its pattern matches. */
  method ExtractCommonInvestment(o: Engine, text: string, l: Lang) returns (fields: Fields)
    ensures fields == CommonInvestment(o, text, l)
  {
    fields := map[];
    var value := ValueOf(o, text, l);
    if value.Some? {
      fields := fields[PortfolioValue := OfOption(value.value)];
    }
    if !Has(fields, PortfolioId) {
      fields := Store(fields, PortfolioId, PortfolioIdOf(o, text));
    }
    fields := Store(fields, RiskProfile, RiskOf(o, text, l));
    var count := AssetsOf(o, text, l);
    if count > 0 {
      fields := fields[AssetNumber := Int(count)];
    }
  }

  /** The common routine writes only the four investment keys; the asset count, when present,
      is the positive number of section lines that name an asset, and without a section or
      without such a line there is none. */
  lemma CommonShape(f: CommonFinds)
    ensures AssembleCommon(f).Keys <= InvestmentKeys
    ensures AssetNumber in AssembleCommon(f) <==> f.assets > 0
    ensures AssetNumber in AssembleCommon(f) ==> AssembleCommon(f)[AssetNumber] == Int(f.assets)
    ensures f.value.Some? <==> PortfolioValue in AssembleCommon(f)
    ensures f.id.Some? <==> PortfolioId in AssembleCommon(f)
  {
  }

  /** The asset count of the common routine counts the section's lines that name an asset. */
  lemma CommonAssets(o: Engine, text: string, l: Lang)
    ensures var d := CommonInvestment(o, text, l);
      var s := o.search(SectionPat(l), text);
      (AssetNumber in d <==>
        s.Some? && exists i :: 0 <= i < |SplitLines(s.value.Group(2))|
                               && NamesAsset(SplitLines(s.value.Group(2))[i]))
      && (AssetNumber in d ==> d[AssetNumber] == Int(AssetLines(SplitLines(s.value.Group(2)))))
      && (AssetNumber in d && SectionShaped(s.value.Group(2)) ==>
            1 <= d[AssetNumber].i <= 10)
  {
    var s := o.search(SectionPat(l), text);
    CommonShape(CommonFindsOf(o, text, l));
    if s.Some? {
      AssetLinesExtremes(SplitLines(s.value.Group(2)));
      if SectionShaped(s.value.Group(2)) {
        SectionAssets(s.value.Group(2));
      }
    }
  }

  // ================================================================ German and Spanish

  /** `extract_investment_de`. */
  method ExtractInvestmentDe(o: Engine, text: string) returns (fields: Fields)
    ensures fields == CommonInvestment(o, text, De)
  {
    fields := ExtractCommonInvestment(o, text, De);
  }

  /** `extract_investment_es`. */
  method ExtractInvestmentEs(o: Engine, text: string) returns (fields: Fields)
    ensures fields == CommonInvestment(o, text, Es)
  {
    fields := ExtractCommonInvestment(o, text, Es);
  }

  // ================================================================ French

  /** "numéro de compte …" (group 1) and "Montant à l'échéance | final …" (group 1). */
  const AccountNumberPat: Pat := InvestmentLabel(Fr, PortfolioId, 1)
  const MaturityPat: Pat := InvestmentLabel(Fr, PortfolioValue, 1)

  /** The account number with all whitespace removed. */
  function AccountNumberOf(o: Engine, text: string): Option<string> {
    match o.search(AccountNumberPat, text)
    case None => None
    case Some(m) => Some(DropSpaces(m.Group(1)))
  }

  /** The maturity amount: group 1 with its spaces removed, through `normalize_amount`. */
  function MaturityOf(o: Engine, text: string): Option<Option<string>> {
    match o.search(MaturityPat, text)
    case None => None
    case Some(m) => Some(NormalizeAmount(o, Replace(m.Group(1), " ", "")))
  }

  /** The French additions to a common result: the account number replaces the id; the
      maturity amount is used only when no truthy value is there. */
  function FrenchAdditions(d: Fields, account: Option<string>, maturity: Option<Option<string>>)
    : Fields
  {
    var d := Put(d, PortfolioId, account);
    if Has(d, PortfolioValue) then d else PutFound(d, PortfolioValue, maturity)
  }

  /** What `extract_investment_fr(text)` returns. */
  function FrenchInvestment(o: Engine, text: string): Fields {
    FrenchAdditions(CommonInvestment(o, text, Fr), AccountNumberOf(o, text), MaturityOf(o, text))
  }

  /** The two French steps after the common routine. */
  method AddFrenchFields(o: Engine, text: string, common: Fields) returns (fields: Fields)
    ensures fields == FrenchAdditions(common, AccountNumberOf(o, text), MaturityOf(o, text))
  {
    fields := common;
    var m := o.search(AccountNumberPat, text);
    if m.Some? {
      fields := fields[PortfolioId := Str(DropSpaces(m.value.Group(1)))];
    }
    if !Has(fields, PortfolioValue) {
      m := o.search(MaturityPat, text);
      if m.Some? {
        var amount := Replace(m.value.Group(1), " ", "");
        fields := fields[PortfolioValue := OfOption(NormalizeAmount(o, amount))];
      }
    }
  }

  /** `extract_investment_fr`: the common routine with the French table, then the account
      number and the maturity fallback. */
  method ExtractInvestmentFr(o: Engine, text: string) returns (fields: Fields)
    ensures fields == FrenchInvestment(o, text)
  {
    fields := ExtractCommonInvestment(o, text, Fr);
    fields := AddFrenchFields(o, text, fields);
  }

  /** An account number, when found, is the portfolio id whatever the common routine found;
      without it the common id stays. */
  lemma FrenchAccountNumber(d: Fields, account: Option<string>, maturity: Option<Option<string>>)
    ensures var r := FrenchAdditions(d, account, maturity);
      (account.Some? ==> PortfolioId in r && r[PortfolioId] == Str(account.value))
      && (account.None? ==>
            (PortfolioId in r <==> PortfolioId in d)
            && (PortfolioId in d ==> r[PortfolioId] == d[PortfolioId]))
  {
  }

  /** The maturity amount fills the value only when the common routine left it absent or
      falsy; a truthy value is never replaced. */
  lemma FrenchMaturityFallback(d: Fields, account: Option<string>,
                               maturity: Option<Option<string>>)
    ensures var r := FrenchAdditions(d, account, maturity);
      (Has(d, PortfolioValue) ==> r[PortfolioValue] == d[PortfolioValue])
      && (!Has(d, PortfolioValue) && maturity.Some? ==>
            r[PortfolioValue] == OfOption(maturity.value))
      && (forall k :: k != PortfolioId && k != PortfolioValue ==>
            (k in r <==> k in d) && (k in d ==> r[k] == d[k]))
  {
  }

  /** The French result holds only investment keys, and its id is the account number,
      whitespace removed, whenever that pattern matches. */
  lemma FrenchShape(o: Engine, text: string)
    ensures FrenchInvestment(o, text).Keys <= InvestmentKeys
    ensures o.search(AccountNumberPat, text).Some? ==>
      var id := FrenchInvestment(o, text)[PortfolioId];
      id == Str(DropSpaces(o.search(AccountNumberPat, text).value.Group(1)))
      && forall i :: 0 <= i < |id.s| ==> !IsSpace(id.s[i])
  {
    CommonShape(CommonFindsOf(o, text, Fr));
  }

  // ================================================================ Italian

  /** The Italian patterns: pension value ("posizione complessiva maturata … ammonta a €"),
      reference number, certificate id, certificate value, investment line (the risk
      profile) and "nome e cognome". Each value is group 1. */
  const PensionPat: Pat := InvestmentLabel(It, PortfolioValue, 0)
  const ReferencePat: Pat := InvestmentLabel(It, PortfolioId, 0)
  const CertIdPat: Pat := InvestmentLabel(It, PortfolioId, 1)
  const CertValuePat: Pat := InvestmentLabel(It, PortfolioValue, 1)
  const InvestmentLinePat: Pat := InvestmentLabel(It, RiskProfile, 0)
  const HolderPat: Pat := InvestmentLabel(It, CustomerName, 0)

  /** `amount.replace('.', '').replace(',', '.')`: the text `float()` is given. */
  function PensionDecimal(amount: string): string {
    Replace(Replace(amount, ".", ""), ",", ".")
  }

  /** The Italian notation "a.b,c" is read as the number "ab.c". */
  lemma PensionNotation(a: string, b: string, c: string)
    requires AllDigits(a) && AllDigits(b) && AllDigits(c)
    ensures PensionDecimal(a + "." + b + "," + c) == a + b + "." + c
  {
    DotDropped(a, b, c);
    CommaToPoint(a, b, c);
  }

  /** A certificate id with the "CD-" prefix it must carry. */
  function CdPrefixed(id: string): (r: string)
    ensures StartsWith(r, "CD-")
    ensures r == id || r == "CD-" + id
  {
    if StartsWith(id, "CD-") then id else "CD-" + id
  }

  /** Prefixing is idempotent: an id that has the prefix keeps it as it is. */
  lemma CdPrefixIdempotent(id: string)
    ensures CdPrefixed(CdPrefixed(id)) == CdPrefixed(id)
    ensures StartsWith(id, "CD-") <==> CdPrefixed(id) == id
  {
    if !StartsWith(id, "CD-") {
      assert |"CD-" + id| > |id|;
    }
  }

  /** What the Italian searches find: the groups as captured, the certificate value through
      `normalize_amount`. */
  datatype ItalianFinds = ItalianFinds(
    pension: Option<string>, reference: Option<string>, certId: Option<string>,
    certValue: Option<Option<string>>, risk: Option<string>, holder: Option<string>)

  /** Group 1 of the certificate value through `normalize_amount`. */
  function CertValueOf(o: Engine, text: string): Option<Option<string>> {
    match o.search(CertValuePat, text)
    case None => None
    case Some(m) => Some(NormalizeAmount(o, m.Group(1)))
  }

  function ItalianFindsOf(o: Engine, text: string): ItalianFinds {
    ItalianFinds(GroupOf(o, PensionPat, text, 1), GroupOf(o, ReferencePat, text, 1),
                 GroupOf(o, CertIdPat, text, 1), CertValueOf(o, text),
                 GroupOf(o, InvestmentLinePat, text, 1), GroupOf(o, HolderPat, text, 1))
  }

  /** The Italian id: the reference number, stripped, or else the certificate id with its
      "CD-" prefix. */
  function ItalianIdOf(reference: Option<string>, certId: Option<string>): Option<string> {
    if reference.Some? then Some(Strip(reference.value))
    else if certId.Some? then Some(CdPrefixed(certId.value))
    else None
  }

  /** The Italian dictionary: the pension value as a float, then the id, then the certificate
      value over the pension value, the investment line and the holder's name, stripped. */
  function AssembleItalian(f: ItalianFinds): Fields {
    var d: Fields :=
      if f.pension.Some? then map[PortfolioValue := Dec(PensionDecimal(f.pension.value))]
      else map[];
    var d := PutFound(Put(d, PortfolioId, ItalianIdOf(f.reference, f.certId)),
                      PortfolioValue, f.certValue);
    Put(Put(d, RiskProfile, Stripped(f.risk)), CustomerName, Stripped(f.holder))
  }

  function ItalianInvestment(o: Engine, text: string): Fields {
    AssembleItalian(ItalianFindsOf(o, text))
  }

  /** `extract_investment_it`: deposit certificates and pension funds. */
  method ExtractInvestmentIt(o: Engine, text: string) returns (fields: Fields)
    ensures fields == ItalianInvestment(o, text)
  {
    fields := map[];
    var certId := GroupOf(o, CertIdPat, text, 1);
    var certValue := CertValueOf(o, text);
    var risk := GroupOf(o, InvestmentLinePat, text, 1);
    var pension := GroupOf(o, PensionPat, text, 1);
    if pension.Some? {
      fields := fields[PortfolioValue := Dec(PensionDecimal(pension.value))];
    }
    var reference := GroupOf(o, ReferencePat, text, 1);
    if reference.Some? {
      fields := fields[PortfolioId := Str(Strip(reference.value))];
    } else if certId.Some? || certValue.Some? {
      if certId.Some? {
        fields := fields[PortfolioId := Str(CdPrefixed(certId.value))];
      }
    }
    fields := StoreFound(fields, PortfolioValue, certValue);
    fields := Store(fields, RiskProfile, Stripped(risk));
    fields := Store(fields, CustomerName, Stripped(GroupOf(o, HolderPat, text, 1)));
  }

  /** The id written is exactly the one `ItalianIdOf` chooses; the later writes leave it. */
  lemma AssembleItalianId(f: ItalianFinds)
    ensures var id := ItalianIdOf(f.reference, f.certId);
      (PortfolioId in AssembleItalian(f) <==> id.Some?)
      && (id.Some? ==> AssembleItalian(f)[PortfolioId] == Str(id.value))
  {
    var d0: Fields :=
      if f.pension.Some? then map[PortfolioValue := Dec(PensionDecimal(f.pension.value))]
      else map[];
    var id := ItalianIdOf(f.reference, f.certId);
    var d1 := Put(d0, PortfolioId, id);
    var d2 := PutFound(d1, PortfolioValue, f.certValue);
    var d3 := Put(d2, RiskProfile, Stripped(f.risk));
    PutFoundOther(d1, PortfolioValue, f.certValue, PortfolioId);
    PutOther(d2, RiskProfile, Stripped(f.risk), PortfolioId);
    PutOther(d3, CustomerName, Stripped(f.holder), PortfolioId);
  }

  /** The reference number wins over the certificate id; a certificate id always comes out
      with the "CD-" prefix; without either there is no id. */
  lemma ItalianId(f: ItalianFinds)
    ensures var d := AssembleItalian(f);
      (f.reference.Some? ==> d[PortfolioId] == Str(Strip(f.reference.value)))
      && (f.reference.None? && f.certId.Some? ==>
            d[PortfolioId].Str? && StartsWith(d[PortfolioId].s, "CD-"))
      && (PortfolioId in d <==> f.reference.Some? || f.certId.Some?)
  {
    AssembleItalianId(f);
  }

  /** A certificate value replaces the pension value; the pension value stands only without
      one. */
  lemma ItalianValue(f: ItalianFinds)
    ensures var d := AssembleItalian(f);
      (f.certValue.Some? ==> d[PortfolioValue] == OfOption(f.certValue.value))
      && (f.certValue.None? && f.pension.Some? ==>
            d[PortfolioValue] == Dec(PensionDecimal(f.pension.value)))
      && (PortfolioValue in d <==> f.certValue.Some? || f.pension.Some?)
  {
  }

  /** The Italian handler writes the investment keys and the customer name, which it writes
      exactly when "nome e cognome" matches. */
  lemma ItalianShape(f: ItalianFinds)
    ensures AssembleItalian(f).Keys <= InvestmentKeys + {CustomerName}
    ensures CustomerName in AssembleItalian(f) <==> f.holder.Some?
    ensures AssetNumber !in AssembleItalian(f)
  {
  }

  // ================================================================ English

  /** "INV-EN-ddddd-dddd" (group 0) and "total value of … $d,ddd.dd" (group 1). */
  const EnglishIdPat: Pat := InvestmentLabel(En, PortfolioId, 0)
  const EnglishValuePat: Pat := InvestmentLabel(En, PortfolioValue, 0)

  /** The fixed list of asset classes whose length is the English asset count. */
  const AssetClasses: seq<string> :=
    ["Equities", "Fixed Income", "Real Estate", "Alternatives", "Cash & Equivalents"]

  function EnglishInvestment(o: Engine, text: string): Fields {
    var d: Fields := match o.search(EnglishIdPat, text)
      case None => map[]
      case Some(m) => map[PortfolioId := Str(m.Group(0))];
    var d := match o.search(EnglishValuePat, text)
      case None => d
      case Some(m) => d[PortfolioValue := Str("$" + m.Group(1))];
    d[AssetNumber := Int(|AssetClasses|)]
  }

  /** `extract_investment_en`. */
  method ExtractInvestmentEn(o: Engine, text: string) returns (investment: Fields)
    ensures investment == EnglishInvestment(o, text)
  {
    investment := map[];
    var m := o.search(EnglishIdPat, text);
    if m.Some? {
      investment := investment[PortfolioId := Str(m.value.Group(0))];
    }
    m := o.search(EnglishValuePat, text);
    if m.Some? {
      investment := investment[PortfolioValue := Str("$" + m.value.Group(1))];
    }
    investment := investment[AssetNumber := Int(|AssetClasses|)];
  }

  /** The English asset count is always 5, whatever the text; the value is "$" and the
      captured digits, commas kept. */
  lemma EnglishShape(o: Engine, text: string)
    ensures var d := EnglishInvestment(o, text);
      d.Keys <= InvestmentKeys && d[AssetNumber] == Int(5)
      && RiskProfile !in d
      && (PortfolioValue in d <==> o.search(EnglishValuePat, text).Some?)
      && (PortfolioValue in d ==>
            d[PortfolioValue] == Str("$" + o.search(EnglishValuePat, text).value.Group(1)))
  {
  }

  // ================================================================ dispatch

  /** What `extract_investment_fields(text, language)` returns. */
  function InvestmentFields(o: Engine, text: string, lang: string): Fields {
    match Handler(lang)
    case En => EnglishInvestment(o, text)
    case De => CommonInvestment(o, text, De)
    case Fr => FrenchInvestment(o, text)
    case Es => CommonInvestment(o, text, Es)
    case It => ItalianInvestment(o, text)
  }

  /** `extract_investment_fields`: the handler of the language, the English one for any other
      code. */
  method ExtractInvestmentFields(o: Engine, text: string, lang: string) returns (r: Fields)
    ensures r == InvestmentFields(o, text, lang)
  {
    var h := Handler(lang);
    match h
    case En => r := ExtractInvestmentEn(o, text);
    case De => r := ExtractInvestmentDe(o, text);
    case Fr => r := ExtractInvestmentFr(o, text);
    case Es => r := ExtractInvestmentEs(o, text);
    case It => r := ExtractInvestmentIt(o, text);
  }

  /** A language without a handler is read by the English handler. */
  lemma UnlistedLanguage(o: Engine, text: string, lang: string)
    requires lang !in {"en", "de", "fr", "es", "it"}
    ensures InvestmentFields(o, text, lang) == EnglishInvestment(o, text)
  {
  }

  /** Every handler writes only investment keys, the Italian one also the customer name; an
      asset count is always a positive integer. */
  lemma InvestmentShape(o: Engine, text: string, lang: string)
    ensures InvestmentFields(o, text, lang).Keys <= InvestmentKeys + {CustomerName}
    ensures CustomerName in InvestmentFields(o, text, lang) ==> Handler(lang) == It
    ensures AssetNumber in InvestmentFields(o, text, lang) ==>
      InvestmentFields(o, text, lang)[AssetNumber].Int?
      && InvestmentFields(o, text, lang)[AssetNumber].i > 0
  {
    match Handler(lang)
    case En => EnglishShape(o, text);
    case De => CommonShape(CommonFindsOf(o, text, De));
    case Fr => FrenchShape(o, text); CommonShape(CommonFindsOf(o, text, Fr));
    case Es => CommonShape(CommonFindsOf(o, text, Es));
    case It => ItalianShape(ItalianFindsOf(o, text));
  }
}

/** The credit extractor: a per-language table of field labels fed to one common routine, the
    French card-or-loan choice, and the small search helpers that post-process group 1. */
module CreditExtractor {
  import opened Text
  import opened Fields
  import opened Oracle
  import opened Normalize

  // ================================================================ search helpers

  /** `_search`: group 1 stripped, `None` without a match. */
  function SearchText(o: Engine, p: Pat, text: string): Option<string> {
    match o.search(p, text)
    case None => None
    case Some(m) => Some(Strip(m.Group(1)))
  }

  /** `_search_money`: group 1 through `normalize_money`, `None` without a match. */
  function SearchMoney(o: Engine, p: Pat, text: string, lang: string): Option<string> {
    match o.search(p, text)
    case None => None
    case Some(m) => NormalizeMoney(o, m.Group(1), lang)
  }

  /** `_search_percent`: group 1 with commas turned into dots, stripped, then " %". */
  function SearchPercent(o: Engine, p: Pat, text: string): Option<string> {
    match o.search(p, text)
    case None => None
    case Some(m) => Some(Strip(Replace(m.Group(1), ",", ".")) + " %")
  }

  /** `_search_date`: group 1 through `normalize_date`, `None` without a match. */
  function SearchDate(o: Engine, p: Pat, text: string, lang: string): Option<string> {
    match o.search(p, text)
    case None => None
    case Some(m) => NormalizedDate(o, m.Group(1), lang)
  }

  /** Every helper answers `None` when its pattern does not match; text and percentage answer
      `None` only then, while money and date also answer `None` when normalisation rejects the
      matched group; a percentage always ends in " %" and holds no comma; a money value is two
      decimals and the euro suffix. */
  lemma SearchHelpers(o: Engine, p: Pat, text: string, lang: string)
    ensures SearchText(o, p, text).None? <==> o.search(p, text).None?
    ensures SearchPercent(o, p, text).None? <==> o.search(p, text).None?
    ensures o.search(p, text).None? ==>
      SearchMoney(o, p, text, lang).None? && SearchDate(o, p, text, lang).None?
    ensures o.search(p, text).Some? ==>
      var g := o.search(p, text).value.Group(1);
      (SearchMoney(o, p, text, lang).None? <==> NormalizeMoney(o, g, lang).None?) &&
      (SearchDate(o, p, text, lang).None? <==> NormalizedDate(o, g, lang).None?)
    ensures SearchPercent(o, p, text).Some? ==>
      var v := SearchPercent(o, p, text).value;
      |v| >= 2 && v[|v| - 2..] == " %" && ',' !in v
    ensures SearchMoney(o, p, text, lang).Some? ==> MoneyText(SearchMoney(o, p, text, lang).value)
  {
    match o.search(p, text)
    case None =>
    case Some(m) =>
      assert SearchMoney(o, p, text, lang) == NormalizeMoney(o, m.Group(1), lang);
      assert SearchDate(o, p, text, lang) == NormalizedDate(o, m.Group(1), lang);
      var x := Replace(m.Group(1), ",", ".");
      ReplaceCharRemoves(m.Group(1), ',', ".");
      StripKeepsOut(x, ',');
      var v := Strip(x) + " %";
      assert v[|v| - 2..] == " %";
      assert forall i :: 0 <= i < |v| - 2 ==> v[i] == Strip(x)[i];
  }

  // ================================================================ the common routine

  /** A card number with its '-' and ' ' separators removed. */
  function NoSeparators(s: string): (r: string)
    ensures '-' !in r && ' ' !in r
  {
    ReplaceCharRemoves(s, '-', "");
    ReplaceKeepsOut(Replace(s, "-", ""), " ", "", '-');
    ReplaceCharRemoves(Replace(s, "-", ""), ' ', "");
    Replace(Replace(s, "-", ""), " ", "")
  }

  /** What the searches of the common routine find, field by field, before any of it is
      written: the first card match, the labelled values, the savings rate and the money value
      of the currency fallback. */
  datatype CardFinds = CardFinds(
    card: Option<string>, limit: Option<string>, rate: Option<string>,
    savings: Option<string>, due: Option<string>, period: Option<string>,
    minimum: Option<string>, previous: Option<string>, newBalance: Option<string>,
    fallback: Option<Option<string>>)

  /** The savings-rate override: group 1 and a bare '%'. */
  function SavingsRateValue(o: Engine, text: string): Option<string> {
    match o.search(SavingsRate, text)
    case None => None
    case Some(m) => Some(m.Group(1) + "%")
  }

  /** The searches of the common routine for the handler `h`. */
  function Finds(o: Engine, text: string, lang: string, h: Lang): CardFinds {
    var cards := o.findAll(CreditLabel(h, CardNumber), text);
    CardFinds(
      if cards != [] then Some(NoSeparators(cards[0])) else None,
      SearchMoney(o, CreditLabel(h, CreditLimit), text, lang),
      SearchPercent(o, CreditLabel(h, InterestRate), text),
      SavingsRateValue(o, text),
      SearchDate(o, CreditLabel(h, PaymentDueDate), text, lang),
      SearchText(o, CreditLabel(h, StatementPeriod), text),
      SearchMoney(o, CreditLabel(h, MinimumPayment), text, lang),
      SearchMoney(o, CreditLabel(h, PreviousBalance), text, lang),
      SearchMoney(o, CreditLabel(h, NewBalance), text, lang),
      FallbackOf(o, text, lang))
  }

  /** The money value after a currency sign followed by a balance keyword. */
  function FallbackOf(o: Engine, text: string, lang: string): Option<Option<string>> {
    match o.search(CurrencyBeforeBalance, text)
    case None => None
    case Some(m) => Some(NormalizeMoney(o, m.Group(1), lang))
  }

  /** The dictionary the common routine fills from what it found, before it drops the empty
      values: the card number only when there is one, the savings rate over the labelled
      rate, and the currency fallback only for an empty `new_balance`. */
  function Assemble(f: CardFinds): Fields {
    var d := CardAndRate(f);
    var d := d[PaymentDueDate := OfOption(f.due)][StatementPeriod := OfOption(f.period)]
              [MinimumPayment := OfOption(f.minimum)][PreviousBalance := OfOption(f.previous)]
              [NewBalance := OfOption(f.newBalance)];
    WithFallback(d, f.fallback)
  }

  /** The currency fallback, written only over an empty `new_balance`. */
  function WithFallback(d: Fields, fallback: Option<Option<string>>): Fields
    requires NewBalance in d
  {
    if !Truthy(d[NewBalance]) && fallback.Some? then d[NewBalance := OfOption(fallback.value)]
    else d
  }

  /** The first four steps: card number, limit, the labelled rate and the savings override. */
  function CardAndRate(f: CardFinds): Fields {
    var d: Fields := if f.card.Some? then map[CardNumber := Str(f.card.value)] else map[];
    var d := d[CreditLimit := OfOption(f.limit)][InterestRate := OfOption(f.rate)];
    if f.savings.Some? then d[InterestRate := Str(f.savings.value)] else d
  }

  /** What `_extract_common_credit_fields` returns: the filled dictionary without its falsy
      values. */
  function CommonCredit(o: Engine, text: string, lang: string, h: Lang): Fields {
    TruthyOnly(Assemble(Finds(o, text, lang, h)))
  }

  /** The card number, the limit and the interest rate of `_extract_common_credit_fields`. */
  method FillCardAndRate(o: Engine, text: string, lang: string, h: Lang)
    returns (fields: Fields)
    ensures fields == CardAndRate(Finds(o, text, lang, h))
  {
    fields := map[];
    var matches := o.findAll(CreditLabel(h, CardNumber), text);
    if matches != [] {
      fields := fields[CardNumber := Str(NoSeparators(matches[0]))];
    }
    fields := fields[CreditLimit := OfOption(SearchMoney(o, CreditLabel(h, CreditLimit), text, lang))];
    fields := fields[InterestRate := OfOption(SearchPercent(o, CreditLabel(h, InterestRate), text))];
    var savings := o.search(SavingsRate, text);
    if savings.Some? {
      fields := fields[InterestRate := Str(savings.value.Group(1) + "%")];
    }
  }

  /** The currency fallback of `_extract_common_credit_fields`. */
  method FillFallback(o: Engine, text: string, lang: string, fields: Fields) returns (r: Fields)
    requires NewBalance in fields
    ensures r == WithFallback(fields, FallbackOf(o, text, lang))
  {
    r := fields;
    if !Truthy(r[NewBalance]) {
      var fallback := o.search(CurrencyBeforeBalance, text);
      if fallback.Some? {
        r := r[NewBalance := OfOption(NormalizeMoney(o, fallback.value.Group(1), lang))];
      }
    }
  }

  /** `_extract_common_credit_fields`: each field in turn, later steps overriding earlier ones,
      then only the truthy values kept. */
  method CommonCreditFields(o: Engine, text: string, lang: string, h: Lang)
    returns (r: Fields)
    ensures r == CommonCredit(o, text, lang, h)
  {
    var fields := FillCardAndRate(o, text, lang, h);
    fields := fields[PaymentDueDate :=
      OfOption(SearchDate(o, CreditLabel(h, PaymentDueDate), text, lang))];
    fields := fields[StatementPeriod :=
      OfOption(SearchText(o, CreditLabel(h, StatementPeriod), text))];
    fields := fields[MinimumPayment :=
      OfOption(SearchMoney(o, CreditLabel(h, MinimumPayment), text, lang))];
    fields := fields[PreviousBalance :=
      OfOption(SearchMoney(o, CreditLabel(h, PreviousBalance), text, lang))];
    fields := fields[NewBalance := OfOption(SearchMoney(o, CreditLabel(h, NewBalance), text, lang))];
    fields := FillFallback(o, text, lang, fields);
    assert fields == Assemble(Finds(o, text, lang, h));
    r := TruthyOnly(fields);
  }

  /** The keys the common routine can write. */
  const CardKeys: set<Key> :=
    {CardNumber, CreditLimit, InterestRate, PaymentDueDate, StatementPeriod, MinimumPayment,
     PreviousBalance, NewBalance}

  /** Whatever the searches find, the dictionary holds credit keys only; a savings rate
      overrides the labelled rate; a found card number is stored as found. */
  lemma AssembleShape(f: CardFinds)
    ensures forall k :: k in Assemble(f) ==> k in CardKeys
    ensures f.savings.Some? ==> Assemble(f)[InterestRate] == Str(f.savings.value)
    ensures CardNumber in Assemble(f) <==> f.card.Some?
    ensures f.card.Some? ==> Assemble(f)[CardNumber] == Str(f.card.value)
  {
  }

  /** The fallback is used only when the labelled `new_balance` is empty: a labelled value
      stays, and with neither there is no value. */
  lemma AssembleNewBalance(f: CardFinds)
    ensures f.newBalance.Some? && f.newBalance.value != [] ==>
      Assemble(f)[NewBalance] == Str(f.newBalance.value)
    ensures f.newBalance.None? && f.fallback.None? ==> Assemble(f)[NewBalance] == Null
    ensures f.newBalance.None? && f.fallback.Some? ==>
      Assemble(f)[NewBalance] == OfOption(f.fallback.value)
  {
  }

  /** Whatever the searches find, the common routine returns truthy values under credit keys
      only. */
  lemma TruthyAssembleShape(f: CardFinds)
    ensures var r := TruthyOnly(Assemble(f));
      forall k :: k in r ==> k in CardKeys && Truthy(r[k])
  {
    AssembleShape(f);
  }

  /** A card number in the result is the one found. */
  lemma TruthyAssembleCard(f: CardFinds)
    ensures var r := TruthyOnly(Assemble(f));
      CardNumber in r ==> f.card.Some? && r[CardNumber] == Str(f.card.value)
  {
    AssembleShape(f);
  }

  /** A non-empty savings rate is the interest rate of the result. */
  lemma TruthyAssembleSavings(f: CardFinds)
    ensures var r := TruthyOnly(Assemble(f));
      f.savings.Some? && f.savings.value != [] ==>
        InterestRate in r && r[InterestRate] == Str(f.savings.value)
  {
    AssembleShape(f);
  }

  /** A labelled non-empty `new_balance` survives the filter; with neither a labelled value nor
      a fallback match the key is dropped. */
  lemma TruthyAssembleNewBalance(f: CardFinds)
    ensures var r := TruthyOnly(Assemble(f));
      (f.newBalance.Some? && f.newBalance.value != [] ==>
         NewBalance in r && r[NewBalance] == Str(f.newBalance.value))
      && (f.newBalance.None? && f.fallback.None? ==> NewBalance !in r)
  {
    AssembleNewBalance(f);
  }

  /** The common routine returns truthy values under credit keys only. */
  lemma CommonCreditTruthy(o: Engine, text: string, lang: string, h: Lang)
    ensures var r := CommonCredit(o, text, lang, h);
      forall k :: k in r ==> k in CardKeys && Truthy(r[k])
  {
    TruthyAssembleShape(Finds(o, text, lang, h));
  }

  /** Only truthy values are returned, all under credit keys; the card number holds no
      separator; a savings rate overrides the labelled rate. */
  lemma CommonCreditShape(o: Engine, text: string, lang: string, h: Lang)
    ensures var r := CommonCredit(o, text, lang, h);
      (forall k :: k in r ==> k in CardKeys && Truthy(r[k]))
      && (CardNumber in r ==>
            r[CardNumber].Str? && '-' !in r[CardNumber].s && ' ' !in r[CardNumber].s)
      && (SavingsRateValue(o, text).Some? ==>
            InterestRate in r && r[InterestRate] == Str(SavingsRateValue(o, text).value))
  {
    CommonCreditTruthy(o, text, lang, h);
    var f := Finds(o, text, lang, h);
    TruthyAssembleCard(f);
    if f.savings.Some? {
      assert |f.savings.value| >= 1;
    }
    TruthyAssembleSavings(f);
  }

  /** The currency fallback for `new_balance` is consulted only when the labelled search gives
      nothing: a labelled value is kept, and with neither the field is absent. */
  lemma NewBalanceFallback(o: Engine, text: string, lang: string, h: Lang)
    ensures var primary := SearchMoney(o, CreditLabel(h, NewBalance), text, lang);
      var r := CommonCredit(o, text, lang, h);
      (primary.Some? ==> NewBalance in r && r[NewBalance] == Str(primary.value))
      && (primary.None? && o.search(CurrencyBeforeBalance, text).None? ==> NewBalance !in r)
  {
    var f := Finds(o, text, lang, h);
    assert f.newBalance == SearchMoney(o, CreditLabel(h, NewBalance), text, lang);
    assert f.fallback.None? <==> o.search(CurrencyBeforeBalance, text).None?;
    SearchHelpers(o, CreditLabel(h, NewBalance), text, lang);
    if f.newBalance.Some? {
      assert |f.newBalance.value| >= 4;
    }
    TruthyAssembleNewBalance(f);
  }

  // ================================================================ French and dispatch

  /** The French loan dictionary built from its six searches: six keys, each possibly
      `None`. */
  function Loan(limit: Option<string>, rate: Option<string>, due: Option<string>,
                period: Option<string>, monthly: Option<string>, total: Option<string>): Fields
  {
    map[CreditLimit := OfOption(limit), InterestRate := OfOption(rate),
        PaymentDueDate := OfOption(due), StatementPeriod := OfOption(period),
        MinimumPayment := OfOption(monthly), NewBalance := OfOption(total)]
  }

  /** The keys of the loan dictionary. */
  const LoanKeys: set<Key> :=
    {CreditLimit, InterestRate, PaymentDueDate, StatementPeriod, MinimumPayment, NewBalance}

  lemma LoanShape(limit: Option<string>, rate: Option<string>, due: Option<string>,
                  period: Option<string>, monthly: Option<string>, total: Option<string>)
    ensures Loan(limit, rate, due, period, monthly, total).Keys == LoanKeys
  {
  }

  /** The loan searches of `extract_credit_fr`. */
  function LoanFields(o: Engine, text: string, lang: string): Fields {
    Loan(SearchMoney(o, LoanLabel(CreditLimit), text, lang),
         SearchPercent(o, LoanLabel(InterestRate), text),
         SearchDate(o, LoanLabel(PaymentDueDate), text, lang),
         SearchText(o, LoanLabel(StatementPeriod), text),
         SearchMoney(o, LoanLabel(MinimumPayment), text, lang),
         SearchMoney(o, LoanLabel(NewBalance), text, lang))
  }

  lemma LoanFieldsShape(o: Engine, text: string, lang: string)
    ensures LoanFields(o, text, lang).Keys == LoanKeys
  {
    LoanShape(SearchMoney(o, LoanLabel(CreditLimit), text, lang),
              SearchPercent(o, LoanLabel(InterestRate), text),
              SearchDate(o, LoanLabel(PaymentDueDate), text, lang),
              SearchText(o, LoanLabel(StatementPeriod), text),
              SearchMoney(o, LoanLabel(MinimumPayment), text, lang),
              SearchMoney(o, LoanLabel(NewBalance), text, lang));
  }

  /** `any(d.values())`. */
  predicate AnyTruthy(d: Fields) {
    exists k :: k in d && Truthy(d[k])
  }

  /** What `extract_credit_fr` returns: the card fields when any was found, the loan fields
      otherwise. */
  function FrenchCredit(o: Engine, text: string, lang: string): Fields {
    var card := CommonCredit(o, text, lang, Fr);
    if AnyTruthy(card) then card else LoanFields(o, text, lang)
  }

  /** `extract_credit_fr`. */
  method ExtractCreditFr(o: Engine, text: string, lang: string) returns (r: Fields)
    ensures r == FrenchCredit(o, text, lang)
  {
    var card := CommonCreditFields(o, text, lang, Fr);
    if AnyTruthy(card) {
      return card;
    }
    return LoanFields(o, text, lang);
  }

  /** The French result is either the card fields alone (when there are any) or the loan
      dictionary alone, which has exactly six keys (neither a card number nor a previous
      balance); the two are never merged. */
  lemma FrenchTwoTier(o: Engine, text: string, lang: string)
    ensures var card := CommonCredit(o, text, lang, Fr);
      var r := FrenchCredit(o, text, lang);
      (card != map[] ==> r == card)
      && (card == map[] ==>
            r == LoanFields(o, text, lang) && r.Keys == LoanKeys)
  {
    LoanFieldsShape(o, text, lang);
    CommonCreditTruthy(o, text, lang, Fr);
    TwoTier(CommonCredit(o, text, lang, Fr), LoanFields(o, text, lang));
  }

  /** The choice of `extract_credit_fr` between a dictionary of truthy values and a
      dictionary with the loan keys. */
  lemma TwoTier(card: Fields, loan: Fields)
    requires forall k :: k in card ==> Truthy(card[k])
    requires loan.Keys == LoanKeys
    ensures var r := if AnyTruthy(card) then card else loan;
      (card != map[] ==> r == card) && (card == map[] ==> r == loan && r.Keys == LoanKeys)
  {
    TruthyNonEmpty(card);
  }

  /** A dictionary of truthy values has a truthy value exactly when it is not empty. */
  lemma TruthyNonEmpty(d: Fields)
    requires forall k :: k in d ==> Truthy(d[k])
    ensures AnyTruthy(d) <==> d != map[]
  {
    if d != map[] {
      var k :| k in d;
      assert Truthy(d[k]);
    }
  }

  /** What `extract_credit_fields(text, language)` returns. */
  function CreditFields(o: Engine, text: string, lang: string): Fields {
    var h := Handler(lang);
    if h == Fr then FrenchCredit(o, text, lang) else CommonCredit(o, text, lang, h)
  }

  /** `extract_credit_fields`: the language's handler, the English one for any other code;
      the language code itself is passed on to the normalisers. */
  method ExtractCreditFields(o: Engine, text: string, lang: string) returns (r: Fields)
    ensures r == CreditFields(o, text, lang)
  {
    var h := Handler(lang);
    if h == Fr {
      r := ExtractCreditFr(o, text, lang);
    } else {
      r := CommonCreditFields(o, text, lang, h);
    }
  }

  /** The credit fields never hold the language, the document type or any general key. */
  lemma CreditKeys(o: Engine, text: string, lang: string)
    ensures forall k :: k in CreditFields(o, text, lang) ==> k in CardKeys
  {
    if Handler(lang) == Fr {
      FrenchTwoTier(o, text, lang);
    }
    CommonCreditShape(o, text, lang, Handler(lang));
  }
}

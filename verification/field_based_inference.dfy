/** `infer_document_type`: the document type chosen from the extracted fields by a score per
    type, with language keyword rules and the keyword classifier as fallbacks. */
module Inference {
  import opened Text
  import opened Fields
  import opened ExtractorUtils

  /** The keys each type is scored on. The credit list has no `statement_period`, so the four
      lists share no key. */
  function ScoreKeys(t: DocType): seq<Key> {
    match t
    case Credit =>
      [CardNumber, CreditLimit, InterestRate, PaymentDueDate, MinimumPayment, PreviousBalance,
       NewBalance]
    case PersonalAccount =>
      [AccountNumber, AccountType, StatementPeriod, OpeningBalance, ClosingBalance,
       AvailableBalance, TransactionNumber]
    case Garnishment =>
      [GarnishmentAmount, CreditorName, DebtorName, EffectiveDate, Duration, LegalAuthority]
    case Investment => [PortfolioId, PortfolioValue, AssetNumber, RiskProfile]
    case Unknown => []
  }

  /** The scored types, in the order the score table is built (the tie order). */
  const ScoreOrder: seq<DocType> := [Credit, PersonalAccount, Garnishment, Investment]

  /** The position of a scored type in `ScoreOrder`. */
  function Rank(t: DocType): (i: nat)
    requires t != Unknown
    ensures i < |ScoreOrder| && ScoreOrder[i] == t
  {
    match t
    case Credit => 0
    case PersonalAccount => 1
    case Garnishment => 2
    case Investment => 3
  }

  /** No key is listed twice. */
  predicate Distinct(keys: seq<Key>) {
    forall i, j :: 0 <= i < j < |keys| ==> keys[i] != keys[j]
  }

  /** The type a key is scored for, `Unknown` for a key no type scores. */
  function ScoredType(k: Key): DocType {
    match k
    case CardNumber | CreditLimit | InterestRate | PaymentDueDate | MinimumPayment
      | PreviousBalance | NewBalance => Credit
    case AccountNumber | AccountType | StatementPeriod | OpeningBalance | ClosingBalance
      | AvailableBalance | TransactionNumber => PersonalAccount
    case GarnishmentAmount | CreditorName | DebtorName | EffectiveDate | Duration
      | LegalAuthority => Garnishment
    case PortfolioId | PortfolioValue | AssetNumber | RiskProfile => Investment
    case _ => Unknown
  }

  /** `sum(1 for k in keys if fields.get(k))`: the number of listed keys with a truthy value. */
  function Score(f: Fields, keys: seq<Key>): (n: nat)
    ensures n <= |keys|
    ensures n == 0 <==> forall i :: 0 <= i < |keys| ==> !Has(f, keys[i])
  {
    if keys == [] then 0
    else
      var rest := Score(f, keys[1..]);
      assert forall i :: 0 < i < |keys| ==> keys[i] == keys[1..][i - 1];
      (if Has(f, keys[0]) then 1 else 0) + rest
  }

  function TypeScore(f: Fields, t: DocType): nat {
    Score(f, ScoreKeys(t))
  }

  /** The scores in table order. */
  function ScoreVector(f: Fields): (sc: seq<nat>)
    ensures |sc| == |ScoreOrder|
    ensures forall i :: 0 <= i < |ScoreOrder| ==> sc[i] == TypeScore(f, ScoreOrder[i])
  {
    seq(|ScoreOrder|, i requires 0 <= i < |ScoreOrder| => TypeScore(f, ScoreOrder[i]))
  }

  /** The scoring loop: one score per type, in table order. */
  method Scores(f: Fields) returns (scores: seq<nat>)
    ensures |scores| == |ScoreOrder|
    ensures forall i :: 0 <= i < |ScoreOrder| ==> scores[i] == TypeScore(f, ScoreOrder[i])
  {
    scores := [];
    for i := 0 to |ScoreOrder|
      invariant |scores| == i
      invariant forall j :: 0 <= j < i ==> scores[j] == TypeScore(f, ScoreOrder[j])
    {
      scores := scores + [Score(f, ScoreKeys(ScoreOrder[i]))];
    }
  }

  /** The left-to-right scan of `max(scores, key=...)` from position `k`, `best` being the
      first maximum of the positions before `k`. */
  function MaxFrom(sc: seq<nat>, k: nat, best: nat): (i: nat)
    requires best < k <= |sc|
    requires forall j :: 0 <= j < k ==> sc[j] <= sc[best]
    requires forall j :: 0 <= j < best ==> sc[j] < sc[best]
    ensures i < |sc|
    ensures forall j :: 0 <= j < |sc| ==> sc[j] <= sc[i]
    ensures forall j :: 0 <= j < i ==> sc[j] < sc[i]
    decreases |sc| - k
  {
    if k == |sc| then best
    else MaxFrom(sc, k + 1, if sc[k] > sc[best] then k else best)
  }

  /** `max` over the score table: the first position holding the largest score. */
  function FirstMax(sc: seq<nat>): (i: nat)
    requires sc != []
    ensures i < |sc|
    ensures forall j :: 0 <= j < |sc| ==> sc[j] <= sc[i]
    ensures forall j :: 0 <= j < i ==> sc[j] < sc[i]
  {
    MaxFrom(sc, 1, 0)
  }

  /** The two properties of `FirstMax` single out one position. */
  lemma FirstMaxUnique(sc: seq<nat>, i: nat)
    requires i < |sc|
    requires forall j :: 0 <= j < |sc| ==> sc[j] <= sc[i]
    requires forall j :: 0 <= j < i ==> sc[j] < sc[i]
    ensures FirstMax(sc) == i
  {
    var m := FirstMax(sc);
  }

  /** `fields.get("language", "").lower()`: a value other than a string has no `lower`. */
  function LanguageOf(f: Fields): (r: Result<string>)
    ensures r.Raised? <==> Language in f && !f[Language].Str?
  {
    if Language !in f then Ok("")
    else match f[Language]
      case Str(s) => Ok(Lower(s))
      case _ => Raised("AttributeError")
  }

  /** The language keyword rules, tried in order against the lower-cased text. */
  function KeywordRule(lang: string, text: string): Option<DocType> {
    if lang == "es" && AnyIn(text, ["regularizar", "saldo pendiente", "pagar antes de"]) then
      Some(Credit)
    else if lang == "fr" && AnyIn(text, ["solde impayé", "paiement requis"]) then Some(Credit)
    else if lang == "fr" && AnyIn(text, ["solde disponible", "période de relevé"]) then
      Some(PersonalAccount)
    else if lang == "de"
      && AnyIn(text, ["zahlung erforderlich", "offener betrag", "kontoüberweisung"]) then
      Some(Credit)
    else if lang == "en"
      && AnyIn(text, ["investment portfolio summary", "portfolio valuation"]) then
      Some(Investment)
    else if lang == "en" && Contains(text, "account statement") then Some(PersonalAccount)
    else None
  }

  /** The fallback when no score is positive: the language rules, then the classifier. */
  function Fallback(f: Fields, rawText: string): Result<DocType> {
    match LanguageOf(f)
    case Raised(e) => Raised(e)
    case Ok(lang) =>
      match KeywordRule(lang, Lower(rawText))
      case Some(t) => Ok(t)
      case None => Ok(Classify(rawText))
  }

  /** What `infer_document_type(fields, raw_text)` returns. */
  function Inferred(f: Fields, rawText: string): Result<DocType> {
    var sc := ScoreVector(f);
    var best := FirstMax(sc);
    if sc[best] > 0 then Ok(ScoreOrder[best]) else Fallback(f, rawText)
  }

  /** `infer_document_type`. */
  method InferDocumentType(f: Fields, rawText: string) returns (r: Result<DocType>)
    ensures r == Inferred(f, rawText)
  {
    var scores := Scores(f);
    assert scores == ScoreVector(f);
    var best := FirstMax(scores);
    if scores[best] > 0 {
      return Ok(ScoreOrder[best]);
    }
    var language := LanguageOf(f);
    if language.Raised? {
      return Raised(language.error);
    }
    var text := Lower(rawText);
    var rule := KeywordRule(language.value, text);
    if rule.Some? {
      return Ok(rule.value);
    }
    return Ok(Classify(rawText));
  }

  /** Position `i` holds the largest score and every earlier position a smaller one. */
  predicate FirstBest(f: Fields, i: nat)
    requires i < |ScoreOrder|
  {
    (forall j :: 0 <= j < |ScoreOrder| ==>
      TypeScore(f, ScoreOrder[j]) <= TypeScore(f, ScoreOrder[i]))
    && (forall j :: 0 <= j < i ==> TypeScore(f, ScoreOrder[j]) < TypeScore(f, ScoreOrder[i]))
  }

  /** With a positive score somewhere, the result is the first type in table order whose
      score is the largest. */
  lemma ScoreDecides(f: Fields, rawText: string, k: nat)
    requires k < |ScoreOrder| && TypeScore(f, ScoreOrder[k]) > 0
    ensures Inferred(f, rawText).Ok?
    ensures exists i :: 0 <= i < |ScoreOrder| && Inferred(f, rawText).value == ScoreOrder[i]
                        && FirstBest(f, i)
  {
    var sc := ScoreVector(f);
    var best := FirstMax(sc);
    assert sc[k] <= sc[best];
    assert Inferred(f, rawText) == Ok(ScoreOrder[best]);
    assert FirstBest(f, best);
  }

  /** When every score is zero, the language rules decide, and without a rule the keyword
      classifier does. Only a language value that is not a string can raise. */
  lemma ZeroScoresFallBack(f: Fields, rawText: string)
    requires forall t :: TypeScore(f, t) == 0
    ensures LanguageOf(f).Ok? && KeywordRule(LanguageOf(f).value, Lower(rawText)).Some? ==>
      Inferred(f, rawText) == Ok(KeywordRule(LanguageOf(f).value, Lower(rawText)).value)
    ensures LanguageOf(f).Ok? && KeywordRule(LanguageOf(f).value, Lower(rawText)).None? ==>
      Inferred(f, rawText) == Ok(Classify(rawText))
    ensures LanguageOf(f).Raised? ==> Inferred(f, rawText).Raised?
  {
    var sc := ScoreVector(f);
    assert sc[FirstMax(sc)] == TypeScore(f, ScoreOrder[FirstMax(sc)]);
  }

  /** Spanish text that mentions "saldo pendiente" and has no scored field is credit. */
  lemma SpanishOutstandingBalance(f: Fields, rawText: string)
    requires forall t :: TypeScore(f, t) == 0
    requires Language in f && f[Language] == Str("es")
    requires Contains(Lower(rawText), "saldo pendiente")
    ensures Inferred(f, rawText) == Ok(Credit)
  {
    assert Lower("es") == "es";
    var rule := ["regularizar", "saldo pendiente", "pagar antes de"];
    assert Contains(Lower(rawText), rule[1]);
    ZeroScoresFallBack(f, rawText);
  }

  /** A string language (or none) never makes the inference raise. */
  lemma StringLanguageOk(f: Fields, rawText: string)
    requires Language in f ==> f[Language].Str?
    ensures Inferred(f, rawText).Ok?
  {
  }

  // ---------------------------------------------------------------- monotonicity

  /** Setting a key outside `keys` leaves the count unchanged. */
  lemma {:induction false} ScoreKeepsOut(f: Fields, keys: seq<Key>, k: Key, v: Value)
    requires k !in keys
    ensures Score(f[k := v], keys) == Score(f, keys)
  {
    if keys != [] {
      ScoreKeepsOut(f, keys[1..], k, v);
    }
  }

  /** Making one listed key truthy raises the count by exactly one. */
  lemma {:induction false} ScoreRaises(f: Fields, keys: seq<Key>, k: Key, v: Value)
    requires Distinct(keys) && k in keys && !Has(f, k) && Truthy(v)
    ensures Score(f[k := v], keys) == Score(f, keys) + 1
  {
    var rest := keys[1..];
    assert forall i :: 0 <= i < |rest| ==> rest[i] == keys[i + 1];
    if keys[0] == k {
      assert k !in rest;
      ScoreKeepsOut(f, rest, k, v);
    } else {
      assert k in rest;
      assert Distinct(rest);
      ScoreRaises(f, rest, k, v);
    }
  }

  /** No list repeats a key. */
  lemma ScoreKeysDistinct(t: DocType)
    ensures Distinct(ScoreKeys(t))
  {
    match t
    case Credit => CreditKeysDistinct();
    case PersonalAccount => AccountKeysDistinct();
    case Garnishment => GarnishmentKeysDistinct();
    case Investment => InvestmentKeysDistinct();
    case Unknown =>
  }

  lemma CreditKeysDistinct()
    ensures Distinct(ScoreKeys(Credit))
  {
    assert Distinct([CardNumber, CreditLimit, InterestRate, PaymentDueDate, MinimumPayment,
                     PreviousBalance, NewBalance]);
  }

  lemma AccountKeysDistinct()
    ensures Distinct(ScoreKeys(PersonalAccount))
  {
    assert Distinct([AccountNumber, AccountType, StatementPeriod, OpeningBalance,
                     ClosingBalance, AvailableBalance, TransactionNumber]);
  }

  lemma GarnishmentKeysDistinct()
    ensures Distinct(ScoreKeys(Garnishment))
  {
    assert Distinct([GarnishmentAmount, CreditorName, DebtorName, EffectiveDate, Duration,
                     LegalAuthority]);
  }

  lemma InvestmentKeysDistinct()
    ensures Distinct(ScoreKeys(Investment))
  {
    assert Distinct([PortfolioId, PortfolioValue, AssetNumber, RiskProfile]);
  }

  /** A key is listed only under the type it is scored for: the lists share no key. */
  lemma KeyOwner(k: Key, t: DocType)
    requires k in ScoreKeys(t)
    ensures ScoredType(k) == t
  {
    var i :| 0 <= i < |ScoreKeys(t)| && ScoreKeys(t)[i] == k;
    ListedKeyOwner(t, i);
  }

  /** The key at position `i` of a type's list is scored for that type. */
  lemma ListedKeyOwner(t: DocType, i: nat)
    requires i < |ScoreKeys(t)|
    ensures ScoredType(ScoreKeys(t)[i]) == t
  {
    if i == 0 {
    } else if i == 1 {
    } else if i == 2 {
    } else if i == 3 {
    } else if i == 4 {
    } else if i == 5 {
    } else {
    }
  }

  /** Making a key of type `t` truthy raises `t`'s score by one and no other. */
  lemma ScoresAfterUpdate(f: Fields, t: DocType, k: Key, v: Value)
    requires k in ScoreKeys(t) && !Has(f, k) && Truthy(v)
    ensures TypeScore(f[k := v], t) == TypeScore(f, t) + 1
    ensures forall u :: u != t ==> TypeScore(f[k := v], u) == TypeScore(f, u)
  {
    KeyOwner(k, t);
    ScoreKeysDistinct(t);
    ScoreRaises(f, ScoreKeys(t), k, v);
    forall u | u != t
      ensures TypeScore(f[k := v], u) == TypeScore(f, u)
    {
      OtherKeysOut(k, t, u);
      ScoreKeepsOut(f, ScoreKeys(u), k, v);
    }
  }

  lemma OtherKeysOut(k: Key, t: DocType, u: DocType)
    requires k in ScoreKeys(t) && u != t
    ensures k !in ScoreKeys(u)
  {
    KeyOwner(k, t);
    if k in ScoreKeys(u) {
      KeyOwner(k, u);
    }
  }

  /** A chosen type, whether chosen by score or by a fallback, holds the largest score. */
  lemma ChosenHasMaxScore(f: Fields, rawText: string, t: DocType)
    requires Inferred(f, rawText) == Ok(t) && t != Unknown
    ensures forall j :: 0 <= j < |ScoreOrder| ==> ScoreVector(f)[j] <= ScoreVector(f)[Rank(t)]
  {
    var sc := ScoreVector(f);
    var best := FirstMax(sc);
    if sc[best] > 0 {
      assert ScoreOrder[best] == t;
    }
  }

  /** Raising a largest score makes its position the only maximum. */
  lemma IncrementMax(sc: seq<nat>, i: nat)
    requires i < |sc| && forall j :: 0 <= j < |sc| ==> sc[j] <= sc[i]
    ensures FirstMax(sc[i := sc[i] + 1]) == i
  {
    FirstMaxUnique(sc[i := sc[i] + 1], i);
  }

  /** Making one more scored key of type `t` truthy raises `t`'s score by one and leaves the
      other scores alone, so a type that was chosen stays chosen. */
  lemma VectorAfterUpdate(f: Fields, t: DocType, k: Key, v: Value)
    requires k in ScoreKeys(t) && !Has(f, k) && Truthy(v)
    ensures t != Unknown
    ensures ScoreVector(f[k := v]) == ScoreVector(f)[Rank(t) := ScoreVector(f)[Rank(t)] + 1]
  {
    var i := Rank(t);
    var sc := ScoreVector(f);
    var sc2 := ScoreVector(f[k := v]);
    forall j | 0 <= j < |sc2|
      ensures sc2[j] == sc[i := sc[i] + 1][j]
    {
      ScoreAt(f, t, k, v, j);
    }
  }

  lemma ScoreAt(f: Fields, t: DocType, k: Key, v: Value, j: nat)
    requires k in ScoreKeys(t) && !Has(f, k) && Truthy(v) && j < |ScoreOrder|
    ensures t != Unknown
    ensures ScoreVector(f[k := v])[j] ==
      if j == Rank(t) then ScoreVector(f)[j] + 1 else ScoreVector(f)[j]
  {
    ScoresAfterUpdate(f, t, k, v);
  }

  /** Making one more scored key of type `t` truthy raises `t`'s score by one and leaves the
      other scores alone, so a type that was chosen stays chosen. */
  lemma MoreEvidenceKeepsChoice(f: Fields, rawText: string, t: DocType, k: Key, v: Value)
    requires Inferred(f, rawText) == Ok(t)
    requires k in ScoreKeys(t) && !Has(f, k) && Truthy(v)
    ensures TypeScore(f[k := v], t) == TypeScore(f, t) + 1
    ensures forall u :: u != t ==> TypeScore(f[k := v], u) == TypeScore(f, u)
    ensures Inferred(f[k := v], rawText) == Ok(t)
  {
    ScoresAfterUpdate(f, t, k, v);
    VectorAfterUpdate(f, t, k, v);
    var i := Rank(t);
    var sc := ScoreVector(f);
    assert FirstMax(ScoreVector(f[k := v])) == i by {
      ChosenHasMaxScore(f, rawText, t);
      IncrementMax(sc, i);
    }
  }
}

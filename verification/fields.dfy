/** The vocabulary shared by every extractor: field names, field values, document types and
    the supported languages, with the truthiness and validity tests the pipeline applies. */
module Fields {
  import opened Text

  datatype Option<T> = None | Some(value: T)

  /** The outcome of a routine that can raise: `Raised` names the Python exception. */
  datatype Result<T> = Ok(value: T) | Raised(error: string)

  /** A Python `dict` value as the extractors produce it: `None`, a `str`, an `int`
      (`transaction_number`, `asset_number`) or a `float` built from a decimal string (the
      Italian pension value), kept as that decimal string. */
  datatype Value = Null | Str(s: string) | Int(i: int) | Dec(d: string)

  /** The field names the extractors write. */
  datatype Key =
    // general fields
    | DocumentId | DocumentType | DocumentDate | CustomerName | CustomerId
    | InstitutionName | InstitutionAddress | Language
    // credit
    | CardNumber | CreditLimit | InterestRate | PaymentDueDate | StatementPeriod
    | MinimumPayment | PreviousBalance | NewBalance
    // personal account
    | AccountNumber | AccountType | OpeningBalance | ClosingBalance | AvailableBalance
    | TransactionNumber
    // garnishment
    | DebtorName | CreditorName | GarnishmentAmount | EffectiveDate | Duration | LegalAuthority
    // investment
    | PortfolioId | PortfolioValue | AssetNumber | RiskProfile
    // any other key a dictionary may hold
    | Other(name: string)

  type Fields = map<Key, Value>

  /** The four domain types and the fallback `"unknown"`. */
  datatype DocType = Credit | PersonalAccount | Garnishment | Investment | Unknown

  /** The string a document type is written as in the output. */
  function TypeName(t: DocType): (s: string)
    ensures s != [] && s != " "
  {
    match t
    case Credit => "credit"
    case PersonalAccount => "personal_account"
    case Garnishment => "garnishment"
    case Investment => "investment"
    case Unknown => "unknown"
  }

  /** The languages that have their own handler. */
  datatype Lang = En | De | Fr | Es | It

  function LangCode(l: Lang): string {
    match l
    case En => "en"
    case De => "de"
    case Fr => "fr"
    case Es => "es"
    case It => "it"
  }

  /** The handler a language code selects, if any. */
  function LangOf(code: string): (r: Option<Lang>)
    ensures r.Some? ==> LangCode(r.value) == code
    ensures forall l: Lang :: code == LangCode(l) ==> r == Some(l)
  {
    if code == "en" then Some(En)
    else if code == "de" then Some(De)
    else if code == "fr" then Some(Fr)
    else if code == "es" then Some(Es)
    else if code == "it" then Some(It)
    else None
  }

  /** The handler a language code selects: its own, the English one for any other code. */
  function Handler(lang: string): (h: Lang)
    ensures LangOf(lang).Some? ==> h == LangOf(lang).value
    ensures LangOf(lang).None? ==> h == En
  {
    match LangOf(lang)
    case Some(l) => l
    case None => En
  }

  /** Python truthiness of a field value. A `float` is false exactly when it is zero, that is
      when its decimal string has no non-zero digit. */
  predicate Truthy(v: Value) {
    match v
    case Null => false
    case Str(s) => s != []
    case Int(i) => i != 0
    case Dec(d) => exists k :: 0 <= k < |d| && '1' <= d[k] <= '9'
  }

  /** `fields.get(k)` read as a condition. */
  predicate Has(f: Fields, k: Key) {
    k in f && Truthy(f[k])
  }

  /** `{k: v for k, v in d.items() if v}`: the entries with a truthy value. */
  function TruthyOnly(d: Fields): (r: Fields)
    ensures forall k :: k in r <==> Has(d, k)
    ensures forall k :: k in r ==> k in d && r[k] == d[k]
  {
    map k | k in d && Truthy(d[k]) :: d[k]
  }

  /** `value not in [None, "", " "]`. */
  predicate IsValid(v: Value) {
    v != Null && v != Str("") && v != Str(" ")
  }

  /** A string result that may be `None`. */
  function OfOption(r: Option<string>): (v: Value)
    ensures v == Null <==> r.None?
  {
    if r.Some? then Str(r.value) else Null
  }

  /** A found string, stripped. */
  function Stripped(g: Option<string>): (r: Option<string>)
    ensures r.None? <==> g.None?
  {
    if g.Some? then Some(Strip(g.value)) else None
  }

  /** `d[k] = v` when a value was found. */
  function Put(d: Fields, k: Key, v: Option<string>): Fields {
    if v.Some? then d[k := Str(v.value)] else d
  }

  /** The statement form of `Put`: `if found: d[k] = value`. */
  method Store(d: Fields, k: Key, v: Option<string>) returns (r: Fields)
    ensures r == Put(d, k, v)
  {
    r := d;
    if v.Some? {
      r := r[k := Str(v.value)];
    }
  }

  /** `d[k] = normalised` when the pattern matched, whatever the normaliser gave. */
  function PutFound(d: Fields, k: Key, v: Option<Option<string>>): Fields {
    if v.Some? then d[k := OfOption(v.value)] else d
  }

  /** The statement form of `PutFound`. */
  method StoreFound(d: Fields, k: Key, v: Option<Option<string>>) returns (r: Fields)
    ensures r == PutFound(d, k, v)
  {
    r := d;
    if v.Some? {
      r := r[k := OfOption(v.value)];
    }
  }

  /** A write leaves every other key as it was. */
  lemma PutOther(d: Fields, k: Key, v: Option<string>, j: Key)
    requires j != k
    ensures j in Put(d, k, v) <==> j in d
    ensures j in d ==> Put(d, k, v)[j] == d[j]
  {
  }

  lemma PutFoundOther(d: Fields, k: Key, v: Option<Option<string>>, j: Key)
    requires j != k
    ensures j in PutFound(d, k, v) <==> j in d
    ensures j in d ==> PutFound(d, k, v)[j] == d[j]
  {
  }

  /** The general fields, always kept by the filter. */
  const GeneralKeys: seq<Key> :=
    [DocumentId, DocumentType, DocumentDate, CustomerName, CustomerId,
     InstitutionName, InstitutionAddress, Language]

  /** The keys of each document type, in the order of the filter table (which is also the
      order of the output schema). */
  function TypeKeys(t: DocType): seq<Key> {
    match t
    case Investment => [PortfolioId, PortfolioValue, AssetNumber, RiskProfile]
    case PersonalAccount =>
      [AccountNumber, AccountType, StatementPeriod, OpeningBalance, ClosingBalance,
       AvailableBalance, TransactionNumber]
    case Garnishment =>
      [DebtorName, CreditorName, GarnishmentAmount, EffectiveDate, Duration, LegalAuthority]
    case Credit =>
      [CardNumber, CreditLimit, InterestRate, PaymentDueDate, StatementPeriod, MinimumPayment,
       PreviousBalance, NewBalance]
    case Unknown => []
  }

  predicate IsGeneral(k: Key) {
    k in GeneralKeys
  }
}

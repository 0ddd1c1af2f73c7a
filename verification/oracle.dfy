/** The regular-expression engine, Unicode accent stripping and language detection, kept as
    uninterpreted functions. Every pattern the extractors use is named by a `Pat`; the model
    proves what the extractors do with every possible answer of the engine. */
module Oracle {
  import opened Text
  import opened Fields

  /** One regular expression of the extractors, identified by where it is used. Where a
      routine tries several patterns for one field, `idx` is the position in the order tried. */
  datatype Pat =
    // normalize.py
    | DatePattern(idx: nat)                       // the four date formats, in list order
    | NumberRun                                   // the first run of digits, dots and commas
    | AddressGrammar(lang: Lang)                  // the de/fr/es/it address layouts
    // credit_extractor.py
    | CreditLabel(lang: Lang, field: Key)         // a label of the language followed by a value
    | SavingsRate                                 // "Interest rate on savings: X%"
    | CurrencyBeforeBalance                       // a currency sign, then a balance keyword
    | LoanLabel(field: Key)                       // the French loan labels
    // personal_account_extractor.py
    | AccountLabel(field: Key, lang: Lang, idx: nat)
    | Iban | NumericDate | TransactionSection | TransactionRow | TransactionLine
    | OverdraftTable | OverdraftRow | DateAmount
    // garnishment_extractor.py
    | CourtOrder(field: Key, idx: nat)
    | EnforcementOrder(field: Key, idx: nat)
    // investment_extractor.py
    | PortfolioIdPattern                          // "PORT-XX-dddd-dddd"
    | InvestmentLabel(lang: Lang, field: Key, idx: nat)
    // general_extractor.py
    | DocumentIdPattern
    | GeneralLabel(lang: Lang, field: Key, idx: nat)

  /** A match: `groups[0]` is the whole match, `groups[k]` the k-th group. */
  datatype Match = Match(groups: seq<string>) {
    /** `match.group(k)`; a group that did not take part reads as the empty string. */
    function Group(k: nat): string {
      if k < |groups| then groups[k] else ""
    }
  }

  /** `re.search`, `re.findall` (the group text of each match, or the whole match for a
      pattern without groups), `strip_accents` and `langdetect.detect` (`None` when it
      raises). */
  datatype Oracles = Oracles(
    search: (Pat, string) -> Option<Match>,
    findAll: (Pat, string) -> seq<string>,
    stripAccents: string -> string,
    detect: string -> Option<string>)

  /** The day group of a date pattern: one or two ASCII digits (`\d{1,2}`). */
  predicate DayShaped(d: string) {
    1 <= |d| <= 2 && AllDigits(d)
  }

  /** Group 1 (group 2 for the "Month day, year" pattern) holds the day. */
  function DayGroup(idx: nat): nat {
    if idx == 3 then 2 else 1
  }

  /** The debtor patterns of the two garnishment layouts: their group 1 is one or more
      characters (`[^,)]+` and `[^,]+`). */
  predicate DebtorPat(p: Pat) {
    p == CourtOrder(DebtorName, 0) || p == EnforcementOrder(DebtorName, 0)
  }

  /** What the patterns guarantee about their own matches and what accent stripping keeps:
      the day of a date match is one or two digits, a debtor match captures a non-empty name,
      and accent stripping never brings a Cyrillic capital GHE (U+0413) into a string without
      upper-case letters: under NFD only U+0403, itself upper case, decomposes to it. */
  ghost predicate Shaped(o: Oracles) {
    (forall i: nat, t :: o.search(DatePattern(i), t).Some? ==>
      DayShaped(o.search(DatePattern(i), t).value.Group(DayGroup(i))))
    && (forall p, t :: DebtorPat(p) && o.search(p, t).Some? ==>
      o.search(p, t).value.Group(1) != [])
    && (forall s :: NoUpper(s) ==> '\U{0413}' !in o.stripAccents(s))
  }

  predicate NoUpper(s: string) {
    forall i :: 0 <= i < |s| ==> !IsUpperChar(s[i])
  }

  /** An engine that never matches, the witness that shaped engines exist. */
  function Silent(): Oracles {
    Oracles((p: Pat, t: string) => None, (p: Pat, t: string) => [], (s: string) => s,
            (s: string) => None)
  }

  type Engine = o: Oracles | Shaped(o) witness Silent()

  /** An accent stripper that folds "Ā" (U+0100, outside the case tables) to "A", as NFD
      decomposition followed by dropping combining marks does, satisfies the assumption. */
  lemma MacronFoldingShaped()
    ensures Shaped(Oracles((p: Pat, t: string) => None, (p: Pat, t: string) => [],
                           (s: string) => if s == "\U{0100}" then "A" else s,
                           (s: string) => None))
  {
    var strip := (s: string) => if s == "\U{0100}" then "A" else s;
    forall s | NoUpper(s) ensures '\U{0413}' !in strip(s) {
      if s != "\U{0100}" {
        assert forall i :: 0 <= i < |s| ==> s[i] != '\U{0413}';
      }
    }
  }

  /** `m.group(k)` of a search, `None` without a match. */
  function GroupOf(o: Oracles, p: Pat, text: string, k: nat): (r: Option<string>)
    ensures r.None? <==> o.search(p, text).None?
  {
    match o.search(p, text)
    case None => None
    case Some(m) => Some(m.Group(k))
  }

  /** The first pattern of `pats` that matches `text`, with its position and match: the
      behaviour of a loop over a pattern list that stops at the first hit. */
  function FirstMatch(o: Oracles, pats: seq<Pat>, text: string): (r: Option<(nat, Match)>)
    ensures r.None? <==> forall i :: 0 <= i < |pats| ==> o.search(pats[i], text).None?
    ensures r.Some? ==>
      r.value.0 < |pats| && o.search(pats[r.value.0], text) == Some(r.value.1)
      && forall i :: 0 <= i < r.value.0 ==> o.search(pats[i], text).None?
  {
    if pats == [] then None
    else match o.search(pats[0], text)
      case Some(m) => Some((0, m))
      case None =>
        match FirstMatch(o, pats[1..], text)
        case None => None
        case Some(hit) => Some((hit.0 + 1, hit.1))
  }
}

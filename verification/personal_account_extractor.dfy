/** The personal-account extractor: OCR corrections, the per-language label table tried field by
    field, the IBAN and statement-period fallbacks, and the staged transaction count. */
module PersonalAccountExtractor {
  import opened Text
  import opened Fields
  import opened Oracle
  import opened Normalize

  // ================================================================ OCR corrections

  /** The corrections of `preprocess_ocr_text`, in dictionary order. The "Relevé" entry maps
      the word to itself. */
  const Corrections: seq<(string, string)> :=
    [("S0lde", "Solde"), ("s0lde", "solde"), ("cl0ture", "cl\U{00F4}ture"),
     ("Relev\U{00E9}", "Relev\U{00E9}"), ("disponib1e", "disponible")]

  /** The text the extractor works on. */
  function Preprocessed(text: string): string {
    ApplyAll(text, Corrections)
  }

  /** `preprocess_ocr_text`: each correction applied to the whole text in turn. */
  method PreprocessOcrText(text: string) returns (r: string)
    ensures r == Preprocessed(text)
  {
    r := text;
    for i := 0 to |Corrections|
      invariant ApplyAll(r, Corrections[i..]) == Preprocessed(text)
    {
      assert Corrections[i..][1..] == Corrections[i + 1..];
      r := Replace(r, Corrections[i].0, Corrections[i].1);
    }
  }

  /** A replacement of a string by itself can be dropped from a list of replacements. */
  lemma {:induction false} ApplyAllSkipsIdentity(s: string, p: seq<(string, string)>,
                                                 t: string, q: seq<(string, string)>)
    requires Replacements(p) && Replacements(q) && t != []
    ensures Replacements(p + [(t, t)] + q) && Replacements(p + q)
    ensures ApplyAll(s, p + [(t, t)] + q) == ApplyAll(s, p + q)
    decreases |p|
  {
    if p == [] {
      assert p + [(t, t)] + q == [(t, t)] + q && p + q == q;
      assert ([(t, t)] + q)[1..] == q;
      ReplaceSelf(s, t);
    } else {
      assert (p + [(t, t)] + q)[1..] == p[1..] + [(t, t)] + q;
      assert (p + q)[1..] == p[1..] + q;
      ApplyAllSkipsIdentity(Replace(s, p[0].0, p[0].1), p[1..], t, q);
    }
  }

  /** The "Relevé" entry is an identity: the corrections amount to the other four. */
  lemma PreprocessIdentityEntry(text: string)
    ensures Preprocessed(text) == ApplyAll(text, Corrections[..3] + Corrections[4..])
  {
    assert Corrections == Corrections[..3] + [(Corrections[3].0, Corrections[3].0)]
      + Corrections[4..];
    ApplyAllSkipsIdentity(text, Corrections[..3], Corrections[3].0, Corrections[4..]);
  }

  /** Every correction targets a '0' or '1' misread (or is the identity), so a text without
      either digit is left as it is. */
  lemma PreprocessWithoutMisreads(text: string)
    requires '0' !in text && '1' !in text
    ensures Preprocessed(text) == text
  {
    ReplaceAbsent(text, "S0lde", "Solde", 1);
    ReplaceAbsent(text, "s0lde", "solde", 1);
    ReplaceAbsent(text, "cl0ture", "cl\U{00F4}ture", 2);
    ReplaceSelf(text, "Relev\U{00E9}");
    ReplaceAbsent(text, "disponib1e", "disponible", 8);
    var c := Corrections;
    assert ApplyAll(text, c[4..]) == text by {
      assert c[4..][1..] == [];
    }
    assert ApplyAll(text, c[3..]) == text by { assert c[3..][1..] == c[4..]; }
    assert ApplyAll(text, c[2..]) == text by { assert c[2..][1..] == c[3..]; }
    assert ApplyAll(text, c[1..]) == text by { assert c[1..][1..] == c[2..]; }
    assert c[1..] == c[1..];
  }

  // ================================================================ field labels

  /** The fields of the label table, in table order. */
  const LabelOrder: seq<Key> :=
    [AccountType, AccountNumber, StatementPeriod, OpeningBalance, ClosingBalance,
     AvailableBalance, TransactionNumber]

  /** The keys the extractor can write. */
  const AccountKeys: set<Key> :=
    {AccountType, AccountNumber, StatementPeriod, OpeningBalance, ClosingBalance,
     AvailableBalance, TransactionNumber}

  /** The fields whose name ends in "_balance". */
  predicate IsBalance(k: Key) {
    k == OpeningBalance || k == ClosingBalance || k == AvailableBalance
  }

  /** How many label patterns the table lists for a field in a language. */
  function LabelCount(field: Key, l: Lang): nat {
    match field
    case AccountType => if l == De || l == Fr then 2 else 1
    case AccountNumber => 2
    case StatementPeriod => if l == En || l == De then 1 else 2
    case OpeningBalance => if l == Es || l == It then 1 else 2
    case ClosingBalance => if l == It then 1 else 2
    case AvailableBalance => if l == Fr || l == Es then 2 else 1
    case TransactionNumber => 3
    case _ => 0
  }

  /** The label patterns of a field for a language code, each followed by separators and the
      rest of the line as group 1; a code outside the table gets none. */
  function LabelPats(field: Key, lang: string): (pats: seq<Pat>)
    ensures LangOf(lang).None? ==> pats == []
  {
    match LangOf(lang)
    case None => []
    case Some(l) => seq(LabelCount(field, l), i requires 0 <= i => AccountLabel(field, l, i))
  }

  /** What `match_patterns` returns for a field: `None` when no pattern matches; otherwise
      group 1 of the first pattern that matches, stripped, and through `normalize_amount` for a
      balance. */
  function PatternValue(o: Engine, text: string, field: Key, pats: seq<Pat>): Option<string> {
    match FirstMatch(o, pats, text)
    case None => None
    case Some(hit) =>
      var raw := Strip(hit.1.Group(1));
      if IsBalance(field) then NormalizeAmount(o, raw) else Some(raw)
  }

  /** `match_patterns`: the patterns in order, stopping at the first that matches. */
  method MatchPatterns(o: Engine, text: string, field: Key, pats: seq<Pat>)
    returns (r: Option<string>)
    ensures r == PatternValue(o, text, field, pats)
  {
    for i := 0 to |pats|
      invariant forall j :: 0 <= j < i ==> o.search(pats[j], text).None?
    {
      var found := o.search(pats[i], text);
      if found.Some? {
        assert FirstMatch(o, pats, text) == Some((i, found.value)) by {
          var hit := FirstMatch(o, pats, text).value;
          assert !(hit.0 < i);
          assert !(i < hit.0);
        }
        var raw := Strip(found.value.Group(1));
        if IsBalance(field) {
          return NormalizeAmount(o, raw);
        }
        return Some(raw);
      }
    }
    return None;
  }

  /** The value the label table gives a field. */
  function LabelValue(o: Engine, text: string, lang: string, field: Key): Option<string> {
    PatternValue(o, text, field, LabelPats(field, lang))
  }

  /** A value the extractor keeps: `if result:`. */
  predicate Kept(v: Option<string>) {
    v.Some? && v.value != []
  }

  /** The dictionary after the label loop over `keys`: each field with a kept value. */
  function Labelled(o: Engine, text: string, lang: string, keys: seq<Key>): Fields {
    if keys == [] then map[]
    else
      var d := Labelled(o, text, lang, keys[..|keys| - 1]);
      var v := LabelValue(o, text, lang, keys[|keys| - 1]);
      if Kept(v) then d[keys[|keys| - 1] := Str(v.value)] else d
  }

  /** After the label loop a field is present exactly when it is listed and its value is kept,
      and it holds that value. */
  lemma {:induction false} LabelledSpec(o: Engine, text: string, lang: string, keys: seq<Key>)
    ensures forall k :: k in Labelled(o, text, lang, keys) <==>
      k in keys && Kept(LabelValue(o, text, lang, k))
    ensures forall k :: k in Labelled(o, text, lang, keys) ==>
      Kept(LabelValue(o, text, lang, k))
      && Labelled(o, text, lang, keys)[k] == Str(LabelValue(o, text, lang, k).value)
    decreases |keys|
  {
    if keys != [] {
      var init := keys[..|keys| - 1];
      LabelledSpec(o, text, lang, init);
      assert keys == init + [keys[|keys| - 1]];
      forall k ensures k in keys <==> k in init || k == keys[|keys| - 1] {
        assert k in init ==> k in keys;
      }
    }
  }

  // ================================================================ fallbacks

  /** The blocks of `s[i:i+4]` for `i` in `range(0, len(s), 4)`. */
  function Chunks(s: string): (blocks: seq<string>)
    ensures forall i :: 0 <= i < |blocks| ==> 1 <= |blocks[i]| <= 4
    ensures forall i :: 0 <= i < |blocks| - 1 ==> |blocks[i]| == 4
    decreases |s|
  {
    if s == [] then []
    else if |s| <= 4 then [s]
    else [s[..4]] + Chunks(s[4..])
  }

  /** The compact IBAN regrouped in blocks of four joined by single spaces. */
  function Regroup(s: string): string {
    JoinSpace(Chunks(s))
  }

  /** Removing the spaces of a regrouped string gives back the compact string. */
  lemma {:induction false} RegroupRoundTrip(s: string)
    requires ' ' !in s
    ensures Replace(Regroup(s), " ", "") == s
    decreases |s|
  {
    if s == [] {
    } else if |s| <= 4 {
      ReplaceCharAbsent(s, ' ', "");
    } else {
      var head, tail := s[..4], s[4..];
      assert ' ' !in head && ' ' !in tail;
      RegroupRoundTrip(tail);
      var rest := Chunks(tail);
      assert Chunks(s) == [head] + rest;
      assert Regroup(s) == head + " " + Regroup(tail);
      ReplaceCharAppend(head + " ", Regroup(tail), ' ', "");
      ReplaceCharAppend(head, " ", ' ', "");
      ReplaceCharAbsent(head, ' ', "");
      assert Replace(" ", " ", "") == "" by {
        assert " "[..1] == " ";
      }
      assert head + tail == s;
    }
  }

  /** The IBAN fallback: the whole match without spaces, regrouped. */
  function IbanValue(o: Engine, text: string): Option<string> {
    match o.search(Iban, text)
    case None => None
    case Some(m) => Some(Regroup(Replace(m.Group(0), " ", "")))
  }

  /** The separator of a statement period: an en dash between spaces. */
  const PeriodDash: string := " \U{2013} "

  /** Two dates joined by the dash, when both are present and non-empty. */
  function PeriodOf(start: Option<string>, end: Option<string>): Option<string> {
    if Kept(start) && Kept(end) then Some(start.value + PeriodDash + end.value) else None
  }

  /** Two non-empty dates are joined exactly when both are present. */
  lemma PeriodOfSpec(start: Option<string>, end: Option<string>)
    requires start.Some? ==> start.value != []
    requires end.Some? ==> end.value != []
    ensures PeriodOf(start, end).Some? <==> start.Some? && end.Some?
    ensures PeriodOf(start, end).Some? ==>
      PeriodOf(start, end).value == start.value + PeriodDash + end.value
  {
  }

  /** The statement-period fallback: the first two numeric dates, both normalised, joined by
      the dash; nothing when there are fewer than two or either does not normalise. */
  function PeriodValue(o: Engine, text: string, lang: string): Option<string> {
    var dates := o.findAll(NumericDate, text);
    if |dates| < 2 then None
    else PeriodOf(NormalizedDate(o, dates[0], lang), NormalizedDate(o, dates[1], lang))
  }

  // ================================================================ transaction counting

  /** `max(0, n - 1)`: a count without its header row. */
  function Discount(n: nat): nat {
    if n == 0 then 0 else n - 1
  }

  /** The phrase that marks a Spanish overdraft notice. */
  const OverdraftHeading: string := "Operaciones que causaron el descubierto"

  /** The number of dated rows in the "Transaction Details" section, when the text has the
      heading and the section matches. */
  function TableRows(o: Engine, text: string): Option<nat> {
    if !Contains(text, "Transaction Details") then None
    else match o.search(TransactionSection, text)
      case None => None
      case Some(m) => Some(|o.findAll(TransactionRow, m.Group(1))|)
  }

  /** The number of rows in the overdraft table, when the text has the heading and the table
      matches. */
  function OverdraftRows(o: Engine, text: string): Option<nat> {
    if !Contains(text, OverdraftHeading) then None
    else match o.search(OverdraftTable, text)
      case None => None
      case Some(m) => Some(|o.findAll(OverdraftRow, m.Group(1))|)
  }

  /** The counting stages from what they count: the table rows without the header, else the
      transaction lines without a header, overridden by an overdraft table, and the date and
      amount pairs while the count is still zero. */
  function Count(table: Option<nat>, lines: nat, overdraft: Option<nat>, pairs: nat): nat {
    var n := if table.Some? then Discount(table.value) else 0;
    var n := if n == 0 then Discount(lines) else n;
    var n := if overdraft.Some? then overdraft.value else n;
    if n == 0 then pairs else n
  }

  /** The `transaction_number` of a text. */
  function TransactionCount(o: Engine, text: string): nat {
    Count(TableRows(o, text), |o.findAll(TransactionLine, text)|, OverdraftRows(o, text),
          |o.findAll(DateAmount, text)|)
  }

  /** A non-empty overdraft table decides the count; an empty one leaves it to the date and
      amount pairs. */
  lemma CountOverdraft(table: Option<nat>, lines: nat, overdraft: Option<nat>, pairs: nat)
    requires overdraft.Some?
    ensures overdraft.value > 0 ==> Count(table, lines, overdraft, pairs) == overdraft.value
    ensures overdraft.value == 0 ==> Count(table, lines, overdraft, pairs) == pairs
  {
  }

  /** Without an overdraft table, a table with rows beyond its header gives their number, and
      a table with only its header falls back to the lines beyond the first. */
  lemma CountTable(table: Option<nat>, lines: nat, pairs: nat)
    requires table.Some?
    ensures table.value >= 2 ==> Count(table, lines, None, pairs) == table.value - 1
    ensures table.value <= 1 && lines >= 2 ==> Count(table, lines, None, pairs) == lines - 1
  {
  }

  /** The count is zero exactly when no stage found anything beyond a header and there are no
      date and amount pairs. */
  lemma CountZero(table: Option<nat>, lines: nat, overdraft: Option<nat>, pairs: nat)
    ensures Count(table, lines, overdraft, pairs) == 0 <==>
      pairs == 0
      && (overdraft.Some? ==> overdraft.value == 0)
      && (overdraft.None? ==> (table.None? || table.value <= 1) && lines <= 1)
  {
  }

  /** The counting stages of `extract_personal_account_fields`: the table rows without the
      header, the transaction lines while the count is zero, the overdraft table over both, and
      the date and amount pairs while the count is still zero. */
  method CountTransactions(o: Engine, text: string) returns (count: nat)
    ensures count == TransactionCount(o, text)
  {
    count := 0;
    if Contains(text, "Transaction Details") {
      var section := o.search(TransactionSection, text);
      if section.Some? {
        var rows := o.findAll(TransactionRow, section.value.Group(1));
        count := Discount(|rows|);
      }
    }
    if count == 0 {
      var lines := o.findAll(TransactionLine, text);
      count := Discount(|lines|);
    }
    if Contains(text, OverdraftHeading) {
      var table := o.search(OverdraftTable, text);
      if table.Some? {
        var transactions := o.findAll(OverdraftRow, table.value.Group(1));
        count := |transactions|;
      }
    }
    if count == 0 {
      var transactions := o.findAll(DateAmount, text);
      count := |transactions|;
    }
  }

  // ================================================================ the extractor

  /** What the steps after the label loop find, before any of it is written. */
  datatype AccountFinds = AccountFinds(
    labelled: Fields, iban: Option<string>, period: Option<string>, count: nat)

  function Finds(o: Engine, text: string, lang: string): AccountFinds {
    AccountFinds(Labelled(o, text, lang, LabelOrder), IbanValue(o, text),
                 PeriodValue(o, text, lang), TransactionCount(o, text))
  }

  /** The IBAN fallback applied to a dictionary: only when its account number is empty. */
  function WithIban(d: Fields, iban: Option<string>): Fields {
    if !Has(d, AccountNumber) && iban.Some? then d[AccountNumber := Str(iban.value)] else d
  }

  /** The statement-period fallback applied to a dictionary: only when its period is empty. */
  function WithPeriod(d: Fields, period: Option<string>): Fields {
    if !Has(d, StatementPeriod) && period.Some? then d[StatementPeriod := Str(period.value)]
    else d
  }

  /** The label loop of `extract_personal_account_fields`: each field of the table in turn,
      written when `match_patterns` gives a non-empty value. */
  method FillLabels(o: Engine, text: string, lang: string) returns (fields: Fields)
    ensures fields == Labelled(o, text, lang, LabelOrder)
  {
    fields := map[];
    for i := 0 to |LabelOrder|
      invariant fields == Labelled(o, text, lang, LabelOrder[..i])
    {
      var field := LabelOrder[i];
      var result := MatchPatterns(o, text, field, LabelPats(field, lang));
      assert LabelOrder[..i + 1][..i] == LabelOrder[..i];
      if result.Some? && result.value != [] {
        fields := fields[field := Str(result.value)];
      }
    }
    assert LabelOrder[..|LabelOrder|] == LabelOrder;
  }

  /** The statement-period step of `extract_personal_account_fields`: the fallback only when
      the period is empty. */
  method FillStatementPeriod(o: Engine, text: string, lang: string, fields: Fields)
    returns (r: Fields)
    ensures r == WithPeriod(fields, PeriodValue(o, text, lang))
  {
    r := fields;
    if !Has(r, StatementPeriod) {
      var period := InferStatementPeriod(o, text, lang);
      if period.Some? {
        r := r[StatementPeriod := Str(period.value)];
      }
    }
  }

  /** The IBAN step of `extract_personal_account_fields`: only when the account number is
      empty, the first IBAN-shaped match without spaces, regrouped. */
  method FillAccountNumber(o: Engine, text: string, fields: Fields) returns (r: Fields)
    ensures r == WithIban(fields, IbanValue(o, text))
  {
    r := fields;
    if !Has(r, AccountNumber) {
      var ibanMatch := o.search(Iban, text);
      if ibanMatch.Some? {
        var accountNumber := Replace(ibanMatch.value.Group(0), " ", "");
        r := r[AccountNumber := Str(Regroup(accountNumber))];
      }
    }
  }

  /** The statement-period fallback of `extract_personal_account_fields`: the first two
      numeric dates, normalised and joined when both normalise. */
  method InferStatementPeriod(o: Engine, text: string, lang: string) returns (p: Option<string>)
    ensures p == PeriodValue(o, text, lang)
  {
    p := None;
    var dates := o.findAll(NumericDate, text);
    if |dates| >= 2 {
      var start := NormalizeDate(o, dates[0], lang);
      var end := NormalizeDate(o, dates[1], lang);
      assert PeriodValue(o, text, lang) == PeriodOf(start, end);
      if start.Some? && start.value != [] && end.Some? && end.value != [] {
        p := Some(start.value + PeriodDash + end.value);
      }
    }
  }

  /** The dictionary from what was found: the fallbacks only for fields the labels left
      empty, and the count over any labelled `transaction_number`. */
  function Assemble(f: AccountFinds): Fields {
    WithPeriod(WithIban(f.labelled, f.iban), f.period)[TransactionNumber := Int(f.count)]
  }

  /** What `extract_personal_account_fields(text, language)` returns. */
  function PersonalAccountFields(o: Engine, text: string, lang: string): Fields {
    Assemble(Finds(o, Preprocessed(text), lang))
  }

  /** `extract_personal_account_fields`: the corrected text, the label loop, the two
      fallbacks and the counting stages. */
  method ExtractPersonalAccountFields(o: Engine, input: string, lang: string)
    returns (fields: Fields)
    ensures fields == PersonalAccountFields(o, input, lang)
  {
    var text := PreprocessOcrText(input);
    fields := FillLabels(o, text, lang);
    fields := FillAccountNumber(o, text, fields);
    fields := FillStatementPeriod(o, text, lang, fields);
    var count := CountTransactions(o, text);
    fields := fields[TransactionNumber := Int(count)];
  }

  // ================================================================ properties

  /** Whatever was found, the dictionary holds personal-account keys only and always holds the
      count; when the labelled values are truthy, so is every value but a regrouped IBAN and
      the count. */
  lemma AssembleShape(f: AccountFinds)
    requires forall k :: k in f.labelled ==> k in AccountKeys && Truthy(f.labelled[k])
    requires f.period.Some? ==> f.period.value != []
    ensures forall k :: k in Assemble(f) ==> k in AccountKeys
    ensures Assemble(f)[TransactionNumber] == Int(f.count)
    ensures forall k :: k in Assemble(f) && k != AccountNumber && k != TransactionNumber ==>
      Truthy(Assemble(f)[k])
  {
  }

  /** A truthy labelled value other than the count is kept as it is. */
  lemma AssembleKeeps(f: AccountFinds, k: Key)
    requires k in f.labelled && Truthy(f.labelled[k]) && k != TransactionNumber
    ensures k in Assemble(f) && Assemble(f)[k] == f.labelled[k]
  {
  }

  /** A field without a fallback is present exactly when the labels gave it. */
  lemma AssembleLabelOnly(f: AccountFinds, k: Key)
    requires k !in {AccountNumber, StatementPeriod, TransactionNumber}
    ensures k in Assemble(f) <==> k in f.labelled
  {
  }

  /** Without a labelled account number, the field is the IBAN value when there is one. */
  lemma AssembleIban(f: AccountFinds)
    requires AccountNumber !in f.labelled
    ensures AccountNumber in Assemble(f) <==> f.iban.Some?
    ensures f.iban.Some? ==> Assemble(f)[AccountNumber] == Str(f.iban.value)
  {
  }

  /** Without a labelled statement period, the field is the fallback period when there is
      one. */
  lemma AssemblePeriod(f: AccountFinds)
    requires StatementPeriod !in f.labelled
    ensures StatementPeriod in Assemble(f) <==> f.period.Some?
    ensures f.period.Some? ==> Assemble(f)[StatementPeriod] == Str(f.period.value)
  {
  }

  /** The label loop's verdict on one field of the table. */
  lemma LabelledAt(o: Engine, text: string, lang: string, k: Key)
    ensures var d := Labelled(o, text, lang, LabelOrder);
      (k in d <==> k in LabelOrder && Kept(LabelValue(o, text, lang, k)))
      && (k in d ==> d[k] == Str(LabelValue(o, text, lang, k).value))
  {
    LabelledSpec(o, text, lang, LabelOrder);
  }

  /** The labelled dictionary holds the table's keys with truthy values. */
  lemma LabelledShape(o: Engine, text: string, lang: string)
    ensures forall k :: k in Labelled(o, text, lang, LabelOrder) ==>
      k in AccountKeys && Truthy(Labelled(o, text, lang, LabelOrder)[k])
  {
    LabelledSpec(o, text, lang, LabelOrder);
  }

  /** The period fallback is present exactly when there are two numeric dates that both
      normalise, and then joins them with the dash. */
  lemma PeriodValueSpec(o: Engine, text: string, lang: string)
    ensures var dates := o.findAll(NumericDate, text);
      var p := PeriodValue(o, text, lang);
      (p.Some? <==>
         |dates| >= 2 && NormalizedDate(o, dates[0], lang).Some?
         && NormalizedDate(o, dates[1], lang).Some?)
      && (p.Some? ==>
            p.value == NormalizedDate(o, dates[0], lang).value + PeriodDash
                       + NormalizedDate(o, dates[1], lang).value)
  {
    var dates := o.findAll(NumericDate, text);
    if |dates| >= 2 {
      var start, end := NormalizedDate(o, dates[0], lang), NormalizedDate(o, dates[1], lang);
      if start.Some? {
        DateShape(o, dates[0], lang);
      }
      if end.Some? {
        DateShape(o, dates[1], lang);
      }
      PeriodOfSpec(start, end);
    }
  }

  /** `transaction_number` is always present and is the staged count, whatever a label said;
      all keys are personal-account keys, and every value but the account number and the
      count is truthy. */
  lemma PersonalAccountShape(o: Engine, text: string, lang: string)
    ensures var r := PersonalAccountFields(o, text, lang);
      TransactionNumber in r
      && r[TransactionNumber] == Int(TransactionCount(o, Preprocessed(text)))
      && (forall k :: k in r ==> k in AccountKeys)
      && (forall k :: k in r && k != AccountNumber && k != TransactionNumber ==> Truthy(r[k]))
  {
    var t := Preprocessed(text);
    var f := Finds(o, t, lang);
    LabelledShape(o, t, lang);
    assert f.period.Some? ==> f.period.value != [] by {
      PeriodValueSpec(o, t, lang);
    }
    AssembleShape(f);
  }

  /** A field the labels give a value keeps that value: the first matching label pattern
      wins, and the fallbacks do not run for it. */
  lemma LabelWins(o: Engine, text: string, lang: string, k: Key)
    requires k in LabelOrder && k != TransactionNumber
    requires Kept(LabelValue(o, Preprocessed(text), lang, k))
    ensures var r := PersonalAccountFields(o, text, lang);
      k in r && r[k] == Str(LabelValue(o, Preprocessed(text), lang, k).value)
  {
    var t := Preprocessed(text);
    var f := Finds(o, t, lang);
    LabelledAt(o, t, lang, k);
    AssembleKeeps(f, k);
  }

  /** A balance found by its labels is an amount with the euro suffix. */
  lemma BalanceValue(o: Engine, text: string, lang: string, k: Key)
    requires IsBalance(k) && LabelValue(o, text, lang, k).Some?
    ensures var v := LabelValue(o, text, lang, k).value;
      |v| >= |EuroSuffix| && v[|v| - |EuroSuffix|..] == EuroSuffix
  {
  }

  /** A field without a fallback is present exactly when its label value is kept. */
  lemma LabelOnly(o: Engine, text: string, lang: string, k: Key)
    requires k == AccountType || IsBalance(k)
    ensures k in PersonalAccountFields(o, text, lang) <==>
      Kept(LabelValue(o, Preprocessed(text), lang, k))
  {
    var t := Preprocessed(text);
    var f := Finds(o, t, lang);
    assert k in LabelOrder && k !in {AccountNumber, StatementPeriod, TransactionNumber};
    LabelledAt(o, t, lang, k);
    AssembleLabelOnly(f, k);
    assert PersonalAccountFields(o, text, lang) == Assemble(f);
  }

  /** A language outside the table gets no label patterns: only the two fallbacks and the count
      can be present. */
  lemma UnlistedLanguage(o: Engine, text: string, lang: string)
    requires LangOf(lang).None?
    ensures forall k :: k in PersonalAccountFields(o, text, lang) ==>
      k == AccountNumber || k == StatementPeriod || k == TransactionNumber
  {
    var t := Preprocessed(text);
    var f := Finds(o, t, lang);
    forall k | k !in {AccountNumber, StatementPeriod, TransactionNumber}
      ensures k !in Assemble(f)
    {
      LabelledAt(o, t, lang, k);
      assert LabelPats(k, lang) == [];
      AssembleLabelOnly(f, k);
    }
  }

  /** Without a labelled account number, an IBAN match is stored regrouped in blocks of four,
      and removing its spaces gives back the match without spaces; without a match the field is
      absent. */
  lemma IbanFallback(o: Engine, text: string, lang: string)
    requires !Kept(LabelValue(o, Preprocessed(text), lang, AccountNumber))
    ensures var t := Preprocessed(text);
      var r := PersonalAccountFields(o, text, lang);
      (o.search(Iban, t).None? ==> AccountNumber !in r)
      && (o.search(Iban, t).Some? ==>
            var compact := Replace(o.search(Iban, t).value.Group(0), " ", "");
            AccountNumber in r && r[AccountNumber] == Str(Regroup(compact))
            && Replace(Regroup(compact), " ", "") == compact)
  {
    var t := Preprocessed(text);
    var f := Finds(o, t, lang);
    LabelledAt(o, t, lang, AccountNumber);
    AssembleIban(f);
    if o.search(Iban, t).Some? {
      var g := o.search(Iban, t).value.Group(0);
      ReplaceCharRemoves(g, ' ', "");
      RegroupRoundTrip(Replace(g, " ", ""));
    }
  }

  /** Without a labelled statement period, the field is present exactly when the text has two
      numeric dates that both normalise, and then it is "start – end". */
  lemma PeriodFallback(o: Engine, text: string, lang: string)
    requires !Kept(LabelValue(o, Preprocessed(text), lang, StatementPeriod))
    ensures var t := Preprocessed(text);
      var dates := o.findAll(NumericDate, t);
      var r := PersonalAccountFields(o, text, lang);
      (StatementPeriod in r <==>
         |dates| >= 2 && NormalizedDate(o, dates[0], lang).Some?
         && NormalizedDate(o, dates[1], lang).Some?)
      && (StatementPeriod in r ==>
            r[StatementPeriod] == Str(NormalizedDate(o, dates[0], lang).value + PeriodDash
                                      + NormalizedDate(o, dates[1], lang).value))
  {
    var t := Preprocessed(text);
    var f := Finds(o, t, lang);
    LabelledAt(o, t, lang, StatementPeriod);
    AssemblePeriod(f);
    PeriodValueSpec(o, t, lang);
  }
}

/** The shared helpers of the extractors: language detection (its range), the keyword
    classifier and the grouping of a flat field dictionary into output sections. */
module ExtractorUtils {
  import opened Text
  import opened Fields
  import opened Oracle

  // ================================================================ language detection

  /** The language codes that have their own handlers. */
  const Supported: set<string> := {"en", "de", "fr", "es", "it"}

  /** `detect_language`: the detected code when it is supported, "unsupported" for any other
      detected code, "unknown" when detection raises. */
  function DetectLanguage(o: Oracles, text: string): (r: string)
    ensures r in Supported || r == "unsupported" || r == "unknown"
    ensures r == "unknown" <==> o.detect(text).None?
    ensures r in Supported <==> o.detect(text).Some? && o.detect(text).value in Supported
    ensures r in Supported ==> r == o.detect(text).value
  {
    match o.detect(text)
    case None => "unknown"
    case Some(lang) => if lang in Supported then lang else "unsupported"
  }

  // ================================================================ keyword classifier

  /** The keywords of each type, as written (one of them holds upper-case letters). */
  function Keywords(t: DocType): seq<string> {
    match t
    case Garnishment =>
      ["garnishment", "pfändung", "saisie", "embargo", "pignoramento", "zustellung",
       "vollstreckung"]
    case Investment =>
      ["investment", "portfolio", "anlage", "portefeuille", "inversione",
       "investment portfolio summary", "certificato di deposito", "deposito",
       "deposit certificate"]
    case Credit =>
      ["credit", "karte", "crédit", "credito", "tarjeta", "loan", "mortgage", "hypothek",
       "darlehen"]
    case PersonalAccount =>
      ["account", "Account Number", "konto", "compte", "cuenta", "conto", "solde disponible",
       "période de relevé"]
    case Unknown => []
  }

  /** The order in which the keyword table is scanned. */
  const ClassifyOrder: seq<DocType> := [Garnishment, Investment, Credit, PersonalAccount]

  /** `any(keyword in text for keyword in keywords)`. */
  predicate AnyIn(text: string, keywords: seq<string>) {
    exists i :: 0 <= i < |keywords| && Contains(text, keywords[i])
  }

  /** A keyword of type `t` occurs in `text`. */
  predicate HasKeyword(text: string, t: DocType) {
    AnyIn(text, Keywords(t))
  }

  /** Position `i` of `order` is the first whose type has a keyword in `text`. */
  predicate FirstHit(order: seq<DocType>, text: string, i: int) {
    0 <= i < |order| && HasKeyword(text, order[i])
    && forall j :: 0 <= j < i ==> !HasKeyword(text, order[j])
  }

  /** The first type of `order` with a keyword in `text`, or `Unknown`. */
  function FirstTypeWith(order: seq<DocType>, text: string): DocType {
    if order == [] then Unknown
    else if HasKeyword(text, order[0]) then order[0]
    else FirstTypeWith(order[1..], text)
  }

  /** `Unknown` has no keywords. */
  lemma NoUnknownKeyword(text: string)
    ensures !HasKeyword(text, Unknown)
  {
  }

  /** The scan yields `Unknown` exactly when no type of `order` has a keyword in the text, and
      otherwise the type at the first position that has one. */
  lemma {:induction false} FirstTypeWithHit(order: seq<DocType>, text: string)
    ensures FirstTypeWith(order, text) == Unknown <==>
      forall i :: 0 <= i < |order| ==> !HasKeyword(text, order[i])
    ensures FirstTypeWith(order, text) != Unknown ==>
      exists i :: FirstHit(order, text, i) && order[i] == FirstTypeWith(order, text)
    decreases |order|
  {
    NoUnknownKeyword(text);
    if order != [] {
      if HasKeyword(text, order[0]) {
        assert FirstHit(order, text, 0);
      } else {
        var tail := order[1..];
        FirstTypeWithHit(tail, text);
        assert forall i :: 0 < i < |order| ==> order[i] == tail[i - 1];
        if FirstTypeWith(tail, text) != Unknown {
          var i :| FirstHit(tail, text, i) && tail[i] == FirstTypeWith(tail, text);
          assert FirstHit(order, text, i + 1);
        }
      }
    }
  }

  /** `classify_document_type`: the keyword table scanned in order over the lower-cased text. */
  function Classify(text: string): DocType {
    FirstTypeWith(ClassifyOrder, Lower(text))
  }

  /** The classifier answers "unknown" exactly when no keyword of any type occurs in the
      lower-cased text, and otherwise the first type, in table order, one of whose keywords
      occurs. */
  lemma ClassifyFirstHit(text: string)
    ensures Classify(text) == Unknown <==>
      forall i :: 0 <= i < |ClassifyOrder| ==> !HasKeyword(Lower(text), ClassifyOrder[i])
    ensures Classify(text) != Unknown ==>
      exists i :: FirstHit(ClassifyOrder, Lower(text), i) && ClassifyOrder[i] == Classify(text)
  {
    FirstTypeWithHit(ClassifyOrder, Lower(text));
  }

  /** The keyword "Account Number" holds upper-case letters and so never occurs in the
      lower-cased text. */
  lemma AccountNumberNeverMatches(text: string)
    ensures !Contains(Lower(text), Keywords(PersonalAccount)[1])
  {
    LowerAvoids(text, "Account Number", 0);
  }

  /** A garnishment keyword decides the type whatever else the text holds. */
  lemma GarnishmentFirst(text: string, k: nat)
    requires k < |Keywords(Garnishment)| && Contains(Lower(text), Keywords(Garnishment)[k])
    ensures Classify(text) == Garnishment
  {
    var l := Lower(text);
    assert HasKeyword(l, Garnishment) by {
      assert Contains(l, Keywords(Garnishment)[k]);
    }
  }

  /** An investment keyword beats the credit and account keywords ("deposit certificate" wins
      over "credit"). */
  lemma InvestmentBeforeCredit(text: string, k: nat)
    requires k < |Keywords(Investment)| && Contains(Lower(text), Keywords(Investment)[k])
    requires !HasKeyword(Lower(text), Garnishment)
    ensures Classify(text) == Investment
  {
    var l := Lower(text);
    assert HasKeyword(l, Investment) by {
      assert Contains(l, Keywords(Investment)[k]);
    }
    assert ClassifyOrder[1..][0] == Investment;
    assert FirstTypeWith(ClassifyOrder[1..], l) == Investment;
  }

  // ================================================================ output sections

  /** A section of the grouped output. */
  datatype Section = GeneralSection | TypeSection(t: DocType) | DebugSection

  /** The sections of the output schema, in schema order. */
  const Schema: seq<Section> :=
    [GeneralSection, TypeSection(Investment), TypeSection(PersonalAccount),
     TypeSection(Garnishment), TypeSection(Credit)]

  function SectionKeys(s: Section): seq<Key> {
    match s
    case GeneralSection => GeneralKeys
    case TypeSection(t) => TypeKeys(t)
    case DebugSection => []
  }

  /** The entries of `flat` whose key is listed and whose value is not `None`. */
  function SectionData(flat: Fields, keys: seq<Key>): Fields {
    map k | k in flat && k in keys && flat[k] != Null :: flat[k]
  }

  /** The non-empty sections among `secs`, as the grouping loop has built them. */
  function Grouped(flat: Fields, secs: seq<Section>): map<Section, Fields>
    decreases |secs|
  {
    if secs == [] then map[]
    else
      var g := Grouped(flat, secs[..|secs| - 1]);
      var s := secs[|secs| - 1];
      var data := SectionData(flat, SectionKeys(s));
      if data != map[] then g[s := data] else g
  }

  /** The grouped output: the non-empty schema sections, or only the debug section holding
      every non-`None` entry when all of them are empty. */
  function Structured(flat: Fields): map<Section, Fields> {
    var g := Grouped(flat, Schema);
    if g == map[] then map[DebugSection := map k | k in flat && flat[k] != Null :: flat[k]]
    else g
  }

  /** `structure_extracted_fields`. */
  method StructureExtractedFields(flat: Fields) returns (grouped: map<Section, Fields>)
    ensures grouped == Structured(flat)
  {
    grouped := map[];
    for i := 0 to |Schema|
      invariant grouped == Grouped(flat, Schema[..i])
    {
      assert Schema[..i + 1][..i] == Schema[..i];
      var data := SectionData(flat, SectionKeys(Schema[i]));
      if data != map[] {
        grouped := grouped[Schema[i] := data];
      }
    }
    assert Schema[..|Schema|] == Schema;
    if grouped == map[] {
      grouped := map[DebugSection := map k | k in flat && flat[k] != Null :: flat[k]];
    }
  }

  /** The loop keeps exactly the non-empty sections it has visited. */
  lemma {:induction false} GroupedContents(flat: Fields, secs: seq<Section>, s: Section)
    ensures s in Grouped(flat, secs) <==>
      s in secs && SectionData(flat, SectionKeys(s)) != map[]
    ensures s in Grouped(flat, secs) ==> Grouped(flat, secs)[s] == SectionData(flat, SectionKeys(s))
    decreases |secs|
  {
    if secs != [] {
      var init := secs[..|secs| - 1];
      GroupedContents(flat, init, s);
      assert secs == init + [secs[|secs| - 1]];
    }
  }

  /** The debug section is never part of the grouping loop's result. */
  lemma GroupedHasNoDebug(flat: Fields)
    ensures DebugSection !in Grouped(flat, Schema)
  {
    GroupedContents(flat, Schema, DebugSection);
  }

  /** A section's data holds exactly the listed keys present with a value other than `None`. */
  lemma SectionDataKeys(flat: Fields, keys: seq<Key>, k: Key)
    ensures k in SectionData(flat, keys) <==> k in keys && k in flat && flat[k] != Null
    ensures k in SectionData(flat, keys) ==> SectionData(flat, keys)[k] == flat[k]
  {
  }

  /** A schema section is in the output exactly when its data is non-empty, and then it is
      that data. */
  lemma SchemaSection(flat: Fields, s: Section)
    requires s in Schema
    ensures s in Structured(flat) <==> SectionData(flat, SectionKeys(s)) != map[]
    ensures s in Structured(flat) ==> Structured(flat)[s] == SectionData(flat, SectionKeys(s))
  {
    GroupedContents(flat, Schema, s);
  }

  /** The debug section appears exactly when every schema section is empty, and then it is
      the only section and holds every non-`None` entry. */
  lemma DebugSectionWhenEmpty(flat: Fields)
    ensures DebugSection in Structured(flat) <==>
      forall s :: s in Schema ==> SectionData(flat, SectionKeys(s)) == map[]
    ensures DebugSection in Structured(flat) ==> Structured(flat).Keys == {DebugSection}
    ensures DebugSection in Structured(flat) ==>
      forall k :: (k in Structured(flat)[DebugSection] <==> k in flat && flat[k] != Null)
  {
    var g := Grouped(flat, Schema);
    GroupedHasNoDebug(flat);
    if g == map[] {
      forall s | s in Schema
        ensures SectionData(flat, SectionKeys(s)) == map[]
      {
        GroupedContents(flat, Schema, s);
      }
    } else {
      var s :| s in g;
      GroupedContents(flat, Schema, s);
    }
  }

  /** Each schema section holds exactly the section's keys present with a value other than
      `None`, unchanged, and is present exactly when that set is non-empty; the debug section
      appears exactly when every schema section is empty, and then it is the only section and
      holds every non-`None` entry. */
  lemma StructuredContents(flat: Fields)
    ensures forall s :: s in Schema ==>
      (s in Structured(flat) <==> SectionData(flat, SectionKeys(s)) != map[])
    ensures forall s, k :: s in Schema && s in Structured(flat) ==>
      (k in Structured(flat)[s] <==> k in SectionKeys(s) && k in flat && flat[k] != Null)
      && (k in Structured(flat)[s] ==> Structured(flat)[s][k] == flat[k])
    ensures DebugSection in Structured(flat) <==>
      forall s :: s in Schema ==> SectionData(flat, SectionKeys(s)) == map[]
    ensures DebugSection in Structured(flat) ==>
      Structured(flat).Keys == {DebugSection}
      && forall k :: (k in Structured(flat)[DebugSection] <==> k in flat && flat[k] != Null)
    ensures forall s :: s in Structured(flat) ==> s in Schema || s == DebugSection
  {
    forall s | s in Schema {
      SchemaSection(flat, s);
    }
    forall s, k | s in Schema && s in Structured(flat)
      ensures k in Structured(flat)[s] <==> k in SectionKeys(s) && k in flat && flat[k] != Null
      ensures k in Structured(flat)[s] ==> Structured(flat)[s][k] == flat[k]
    {
      SchemaSection(flat, s);
      SectionDataKeys(flat, SectionKeys(s), k);
    }
    DebugSectionWhenEmpty(flat);
    forall s | s in Structured(flat) ensures s in Schema || s == DebugSection {
      GroupedContents(flat, Schema, s);
    }
  }

  /** `statement_period` is in the account and the credit schema, so a value other than
      `None` is copied into both sections. */
  lemma StatementPeriodInBoth(flat: Fields)
    requires StatementPeriod in flat && flat[StatementPeriod] != Null
    ensures var g := Structured(flat);
      TypeSection(PersonalAccount) in g && TypeSection(Credit) in g
      && StatementPeriod in g[TypeSection(PersonalAccount)]
      && StatementPeriod in g[TypeSection(Credit)]
      && g[TypeSection(PersonalAccount)][StatementPeriod] == flat[StatementPeriod]
      && g[TypeSection(Credit)][StatementPeriod] == flat[StatementPeriod]
  {
    var pa := TypeSection(PersonalAccount);
    var cr := TypeSection(Credit);
    assert StatementPeriod in SectionData(flat, SectionKeys(pa));
    assert StatementPeriod in SectionData(flat, SectionKeys(cr));
    GroupedContents(flat, Schema, pa);
    GroupedContents(flat, Schema, cr);
    var g := Grouped(flat, Schema);
    assert g[pa] == SectionData(flat, SectionKeys(pa));
    assert g[cr] == SectionData(flat, SectionKeys(cr));
    assert Structured(flat) == g;
  }
}
